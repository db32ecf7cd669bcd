/** The fast check: what the compiled closures of a schema without references decide. */
module SchemaCheck {
  import opened Depths
  import opened Options
  import opened SchemaModel

  // ---------------------------------------------------------------------------
  // Keywords that hold no schemas
  // ---------------------------------------------------------------------------

  predicate TypeOk(k: Local, v: Value) {
    k.types == [] || exists i :: 0 <= i < |k.types| && MatchesType(v, k.types[i])
  }

  predicate ConstOk(k: Local, v: Value) { k.constant.Some? ==> Equal(v, k.constant.value) }

  predicate EnumOk(k: Local, v: Value) {
    k.enumeration.Some? ==>
      exists i :: 0 <= i < |k.enumeration.value| && Equal(v, k.enumeration.value[i])
  }

  predicate AtLeast(n: nat, min: Option<nat>) { min.Some? ==> n >= min.value }
  predicate AtMost(n: nat, max: Option<nat>) { max.Some? ==> n <= max.value }

  predicate TextOk(env: Env, k: Local, v: Value) {
    v.Str? ==>
      && AtLeast(|v.s|, k.minLength) && AtMost(|v.s|, k.maxLength)
      && (k.pattern.Some? ==> env.matches(k.pattern.value, v.s) == Matched)
      && (k.format.Some? ==> env.format(k.format.value, v.s))
  }

  function LowerBound(k: Local): Option<real> {
    match k.exclusiveMinimum
    case NoBound => None
    case Bound(n) => Some(n)
    case Flag => k.minimum
  }

  function UpperBound(k: Local): Option<real> {
    match k.exclusiveMaximum
    case NoBound => None
    case Bound(n) => Some(n)
    case Flag => k.maximum
  }

  predicate NumberOk(env: Env, k: Local, v: Value) {
    v.Num? ==>
      && (k.minimum.Some? ==> v.n >= k.minimum.value)
      && (k.maximum.Some? ==> v.n <= k.maximum.value)
      && (LowerBound(k).Some? ==> v.n > LowerBound(k).value)
      && (UpperBound(k).Some? ==> v.n < UpperBound(k).value)
      && (k.multipleOf.Some? && k.multipleOf.value > 0.0 ==> env.multiple(v.n, k.multipleOf.value))
  }

  predicate NeedsMet(deps: seq<Dependence>, fields: seq<Field>) {
    forall i :: 0 <= i < |deps| && Has(fields, deps[i].key) ==>
      forall j :: 0 <= j < |deps[i].needs| ==> Has(fields, deps[i].needs[j])
  }

  predicate FieldsOk(k: Local, v: Value) {
    v.Obj? ==>
      && AtLeast(|v.fields|, k.minProperties) && AtMost(|v.fields|, k.maxProperties)
      && (forall i :: 0 <= i < |k.required| ==> Has(v.fields, k.required[i]))
      && NeedsMet(k.dependentRequired, v.fields) && NeedsMet(k.dependencies, v.fields)
  }

  predicate ItemsOk(k: Local, v: Value) {
    v.Arr? ==>
      && AtLeast(|v.items|, k.minItems) && AtMost(|v.items|, k.maxItems)
      && (k.uniqueItems ==> HasUniqueItems(v.items))
  }

  predicate LocalOk(env: Env, k: Local, v: Value) {
    && TypeOk(k, v) && ConstOk(k, v) && EnumOk(k, v)
    && TextOk(env, k, v) && NumberOk(env, k, v) && FieldsOk(k, v) && ItemsOk(k, v)
  }

  // ---------------------------------------------------------------------------
  // Keywords that hold schemas
  // ---------------------------------------------------------------------------

  predicate HasProperty(kids: seq<Kid>, key: string) {
    exists i :: 0 <= i < |kids| && kids[i].role == Property(key)
  }

  predicate MatchesPattern(env: Env, kids: seq<Kid>, key: string) {
    exists i :: 0 <= i < |kids| && kids[i].role.PatternProperty? && env.matches(kids[i].role.pattern, key) == Matched
  }

  /** The key is covered by a property or by a pattern. */
  predicate Claimed(env: Env, kids: seq<Kid>, key: string) {
    HasProperty(kids, key) || MatchesPattern(env, kids, key)
  }

  /** The closure of a schema; `d` calls are on the way already. */
  predicate Check(env: Env, s: Schema, v: Value, d: nat)
    decreases Limit(env.maxDepth) - d, 0
  {
    d < Limit(env.maxDepth) &&
    match s
    case Allow(any) => any
    case Node(k, kids) =>
      && LocalOk(env, k, v)
      && KidsOk(env, kids, v, d + 1)
      && FieldsPass(env, kids, v, d + 1)
      && ItemsPass(env, kids, v, d + 1)
      && ContainsOk(env, k, kids, v, d + 1)
      && (k.anyOf ==> Passing(env, Branches(kids, AnyOf), v, d + 1) > 0)
      && (k.oneOf ==> Passing(env, Branches(kids, OneOf), v, d + 1) == 1)
      && (First(kids, Not).Some? ==> !Check(env, First(kids, Not).value, v, d + 1))
      && IfOk(env, kids, v, d + 1)
  }

  predicate KidsOk(env: Env, kids: seq<Kid>, v: Value, d: nat)
    requires d <= Limit(env.maxDepth)
    decreases Limit(env.maxDepth) - d, 1
  {
    forall i :: 0 <= i < |kids| ==>
      match kids[i].role
      case Property(name) => v.Obj? && Has(v.fields, name) ==> Check(env, kids[i].schema, Get(v.fields, name).value, d)
      case Dependent(name) => v.Obj? && Has(v.fields, name) ==> Check(env, kids[i].schema, v, d)
      case Dependency(name) => v.Obj? && Has(v.fields, name) ==> Check(env, kids[i].schema, v, d)
      case AllOf => Check(env, kids[i].schema, v, d)
      case _ => true
  }

  /** The fields against the names, the patterns and the rest. */
  predicate FieldsPass(env: Env, kids: seq<Kid>, v: Value, d: nat)
    requires d <= Limit(env.maxDepth)
    decreases Limit(env.maxDepth) - d, 2
  {
    v.Obj? ==> forall i :: 0 <= i < |v.fields| ==> FieldPasses(env, kids, v.fields[i], d)
  }

  predicate FieldPasses(env: Env, kids: seq<Kid>, f: Field, d: nat)
    requires d <= Limit(env.maxDepth)
    decreases Limit(env.maxDepth) - d, 1
  {
    && (First(kids, PropertyNames).Some? ==> Check(env, First(kids, PropertyNames).value, Str(f.key), d))
    && (forall j :: 0 <= j < |kids| && kids[j].role.PatternProperty? ==>
          match env.matches(kids[j].role.pattern, f.key)
          case Matched => Check(env, kids[j].schema, f.value, d)
          case NotMatched => true
          case LimitExceeded => false)
    && (!Claimed(env, kids, f.key) && First(kids, Additional).Some? ==>
          Check(env, First(kids, Additional).value, f.value, d))
  }

  predicate ItemsPass(env: Env, kids: seq<Kid>, v: Value, d: nat)
    requires d <= Limit(env.maxDepth)
    decreases Limit(env.maxDepth) - d, 1
  {
    v.Arr? ==> forall i :: 0 <= i < |v.items| && ItemSchema(kids, i).Some? ==>
      Check(env, ItemSchema(kids, i).value, v.items[i], d)
  }

  function CountPassing(env: Env, s: Schema, items: seq<Value>, d: nat): nat
    requires d <= Limit(env.maxDepth)
    decreases Limit(env.maxDepth) - d, 1, |items|
  {
    if items == [] then 0
    else (if Check(env, s, items[0], d) then 1 else 0) + CountPassing(env, s, items[1..], d)
  }

  predicate ContainsOk(env: Env, k: Local, kids: seq<Kid>, v: Value, d: nat)
    requires d <= Limit(env.maxDepth)
    decreases Limit(env.maxDepth) - d, 2
  {
    v.Arr? && First(kids, Contains).Some? ==>
      var n := CountPassing(env, First(kids, Contains).value, v.items, d);
      n >= k.minContains && AtMost(n, k.maxContains)
  }

  /** How many branches accept the value. */
  function Passing(env: Env, branches: seq<Schema>, v: Value, d: nat): nat
    requires d <= Limit(env.maxDepth)
    decreases Limit(env.maxDepth) - d, 1, |branches|
  {
    if branches == [] then 0
    else (if Check(env, branches[0], v, d) then 1 else 0) + Passing(env, branches[1..], v, d)
  }

  predicate IfOk(env: Env, kids: seq<Kid>, v: Value, d: nat)
    requires d <= Limit(env.maxDepth)
    decreases Limit(env.maxDepth) - d, 1
  {
    First(kids, If).Some? ==>
      var branch := First(kids, if Check(env, First(kids, If).value, v, d) then Then else Else);
      branch.Some? ==> Check(env, branch.value, v, d)
  }

  // ---------------------------------------------------------------------------
  // Below the limit the depth does not matter
  // ---------------------------------------------------------------------------

  /** The check of a schema is the same at two depths. */
  ghost predicate SameAt(env: Env, s: Schema, d: nat, e: nat) {
    forall x: Value :: Check(env, s, x, d) == Check(env, s, x, e)
  }

  lemma {:induction false} DepthDoesNotMatter(env: Env, s: Schema, d: nat, e: nat)
    requires Height(s) + d <= Limit(env.maxDepth) && Height(s) + e <= Limit(env.maxDepth)
    ensures SameAt(env, s, d, e)
    decreases Height(s)
  {
    if s.Node? {
      var kids := s.kids;
      forall i | 0 <= i < |kids|
        ensures SameAt(env, kids[i].schema, d + 1, e + 1)
      {
        KidHeight(kids, i);
        DepthDoesNotMatter(env, kids[i].schema, d + 1, e + 1);
      }
      forall x: Value
        ensures Check(env, s, x, d) == Check(env, s, x, e)
      {
        hide LocalOk, KidsOk, FieldsPass, ItemsPass, ContainsOk, Passing, IfOk, SameAt, Height;
        SameOnKids(env, s.local, kids, x, d + 1, e + 1);
      }
    }
  }

  ghost predicate KidsSame(env: Env, kids: seq<Kid>, d: nat, e: nat) {
    forall i :: 0 <= i < |kids| ==> SameAt(env, kids[i].schema, d, e)
  }

  lemma {:induction false} FirstSame(env: Env, kids: seq<Kid>, r: Role, d: nat, e: nat)
    requires KidsSame(env, kids, d, e)
    ensures First(kids, r).Some? ==> SameAt(env, First(kids, r).value, d, e)
    decreases |kids|
  {
    if kids != [] && kids[0].role != r {
      assert forall i :: 0 <= i < |kids[1..]| ==> kids[1..][i] == kids[i + 1];
      FirstSame(env, kids[1..], r, d, e);
    }
  }

  lemma {:induction false} PassingSame(env: Env, kids: seq<Kid>, r: Role, v: Value, d: nat, e: nat)
    requires d <= Limit(env.maxDepth) && e <= Limit(env.maxDepth) && KidsSame(env, kids, d, e)
    ensures Passing(env, Branches(kids, r), v, d) == Passing(env, Branches(kids, r), v, e)
    decreases |kids|
  {
    hide Check;
    if kids != [] {
      assert forall i :: 0 <= i < |kids[1..]| ==> kids[1..][i] == kids[i + 1];
      PassingSame(env, kids[1..], r, v, d, e);
      assert SameAt(env, kids[0].schema, d, e);
      if kids[0].role == r {
        assert Branches(kids, r)[1..] == Branches(kids[1..], r);
      } else {
        assert Branches(kids, r) == Branches(kids[1..], r);
      }
    }
  }

  lemma {:induction false} CountSame(env: Env, s: Schema, items: seq<Value>, d: nat, e: nat)
    requires d <= Limit(env.maxDepth) && e <= Limit(env.maxDepth) && SameAt(env, s, d, e)
    ensures CountPassing(env, s, items, d) == CountPassing(env, s, items, e)
    decreases |items|
  {
    hide Check;
    if items != [] {
      CountSame(env, s, items[1..], d, e);
    }
  }

  lemma FieldSame(env: Env, kids: seq<Kid>, f: Field, d: nat, e: nat)
    requires d <= Limit(env.maxDepth) && e <= Limit(env.maxDepth) && KidsSame(env, kids, d, e)
    ensures FieldPasses(env, kids, f, d) == FieldPasses(env, kids, f, e)
  {
    hide Check, First, Claimed;
    FirstSame(env, kids, PropertyNames, d, e);
    FirstSame(env, kids, Additional, d, e);
    assert forall j :: 0 <= j < |kids| ==> SameAt(env, kids[j].schema, d, e);
  }

  lemma ItemsSame(env: Env, kids: seq<Kid>, v: Value, d: nat, e: nat)
    requires d <= Limit(env.maxDepth) && e <= Limit(env.maxDepth) && KidsSame(env, kids, d, e)
    ensures ItemsPass(env, kids, v, d) == ItemsPass(env, kids, v, e)
  {
    hide Check, First;
    if v.Arr? {
      forall i | 0 <= i < |v.items| && ItemSchema(kids, i).Some?
        ensures SameAt(env, ItemSchema(kids, i).value, d, e)
      {
        FirstSame(env, kids, Prefix(i), d, e);
        FirstSame(env, kids, Rest, d, e);
      }
    }
  }

  lemma SameOnKids(env: Env, k: Local, kids: seq<Kid>, v: Value, d: nat, e: nat)
    requires d <= Limit(env.maxDepth) && e <= Limit(env.maxDepth) && KidsSame(env, kids, d, e)
    ensures KidsOk(env, kids, v, d) == KidsOk(env, kids, v, e)
    ensures FieldsPass(env, kids, v, d) == FieldsPass(env, kids, v, e)
    ensures ItemsPass(env, kids, v, d) == ItemsPass(env, kids, v, e)
    ensures ContainsOk(env, k, kids, v, d) == ContainsOk(env, k, kids, v, e)
    ensures Passing(env, Branches(kids, AnyOf), v, d) == Passing(env, Branches(kids, AnyOf), v, e)
    ensures Passing(env, Branches(kids, OneOf), v, d) == Passing(env, Branches(kids, OneOf), v, e)
    ensures First(kids, Not).Some? ==>
      Check(env, First(kids, Not).value, v, d) == Check(env, First(kids, Not).value, v, e)
    ensures IfOk(env, kids, v, d) == IfOk(env, kids, v, e)
  {
    hide Check, First, FieldPasses, ItemsPass, Branches, Passing, CountPassing;
    assert forall i :: 0 <= i < |kids| ==> SameAt(env, kids[i].schema, d, e);
    if v.Obj? {
      forall i | 0 <= i < |v.fields|
        ensures FieldPasses(env, kids, v.fields[i], d) == FieldPasses(env, kids, v.fields[i], e)
      {
        FieldSame(env, kids, v.fields[i], d, e);
      }
    }
    ItemsSame(env, kids, v, d, e);
    FirstSame(env, kids, Contains, d, e);
    if v.Arr? && First(kids, Contains).Some? {
      CountSame(env, First(kids, Contains).value, v.items, d, e);
    }
    PassingSame(env, kids, AnyOf, v, d, e);
    PassingSame(env, kids, OneOf, v, d, e);
    FirstSame(env, kids, Not, d, e);
    FirstSame(env, kids, If, d, e);
    FirstSame(env, kids, Then, d, e);
    FirstSame(env, kids, Else, d, e);
  }
}
