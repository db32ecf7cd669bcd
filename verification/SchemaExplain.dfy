/** The slow explainer: the same keywords walked again, to say where a value that
    the fast check rejected is wrong. */
module SchemaExplain {
  import opened Depths
  import opened Options
  import opened SchemaModel
  import opened SchemaCheck

  /** Where and under which keyword; the message text is not modelled. */
  datatype Error = Error(path: string, keyword: string)

  function Escape(key: string): string {
    if key == "" then ""
    else (if key[0] == '~' then "~0" else if key[0] == '/' then "~1" else [key[0]]) + Escape(key[1..])
  }

  function AppendPointer(path: string, key: string): string { path + "/" + Escape(key) }

  function Digits(n: nat): string {
    if n < 10 then [(n + '0' as int) as char] else Digits(n / 10) + Digits(n % 10)
  }

  function Says(complains: bool, path: string, keyword: string): seq<Error> {
    if complains then [Error(path, keyword)] else []
  }

  // ---------------------------------------------------------------------------
  // Keywords that hold no schemas
  // ---------------------------------------------------------------------------

  function WalkText(env: Env, k: Local, s: string, path: string): seq<Error> {
    Says(k.minLength.Some? && |s| < k.minLength.value, path, "minLength")
    + Says(k.maxLength.Some? && |s| > k.maxLength.value, path, "maxLength")
    + Says(k.pattern.Some? && env.matches(k.pattern.value, s) != Matched, path, "pattern")
    + Says(k.format.Some? && !env.format(k.format.value, s), path, "format")
  }

  function WalkNumber(env: Env, k: Local, n: real, path: string): seq<Error> {
    Says(k.minimum.Some? && n < k.minimum.value, path, "minimum")
    + Says(k.maximum.Some? && n > k.maximum.value, path, "maximum")
    + Says(k.exclusiveMinimum.Bound? && n <= k.exclusiveMinimum.n, path, "exclusiveMinimum")
    + Says(k.exclusiveMaximum.Bound? && n >= k.exclusiveMaximum.n, path, "exclusiveMaximum")
    + Says(k.multipleOf.Some? && k.multipleOf.value > 0.0 && !env.multiple(n, k.multipleOf.value), path, "multipleOf")
  }

  function Missing(names: seq<string>, fields: seq<Field>, path: string, keyword: string): seq<Error> {
    if names == [] then []
    else
      Says(!Has(fields, names[0]), AppendPointer(path, names[0]), keyword)
      + Missing(names[1..], fields, path, keyword)
  }

  function WalkNeeds(deps: seq<Dependence>, fields: seq<Field>, path: string): seq<Error> {
    if deps == [] then []
    else
      (if Has(fields, deps[0].key) then Missing(deps[0].needs, fields, path, "dependentRequired") else [])
      + WalkNeeds(deps[1..], fields, path)
  }

  function WalkItemCounts(k: Local, items: seq<Value>, path: string): seq<Error> {
    Says(k.minItems.Some? && |items| < k.minItems.value, path, "minItems")
    + Says(k.maxItems.Some? && |items| > k.maxItems.value, path, "maxItems")
    + Says(k.uniqueItems && !HasUniqueItems(items), path, "uniqueItems")
  }

  // ---------------------------------------------------------------------------
  // Choosing a branch to blame
  // ---------------------------------------------------------------------------

  datatype Tag = Tag(key: string, values: seq<Value>)

  predicate IsScalar(v: Value) { !v.Obj? && !v.Arr? }

  predicate Known(values: seq<Value>, v: Value) { exists i :: 0 <= i < |values| && Equal(values[i], v) }

  /** The constants the branches give a property, if they tell the branches apart. */
  function TagValues(branches: seq<Schema>, key: string, values: seq<Value>): (r: Option<seq<Value>>)
    ensures r.Some? ==> |r.value| == |values| + |branches|
  {
    if branches == [] then Some(values)
    else if !branches[0].Node? then None
    else match First(branches[0].kids, Property(key))
      case Some(Node(k, _)) =>
        if k.constant.Some? && IsScalar(k.constant.value) && !Known(values, k.constant.value)
        then TagValues(branches[1..], key, values + [k.constant.value])
        else None
      case _ => None
  }

  function TagAmong(props: seq<Kid>, branches: seq<Schema>): (r: Option<Tag>)
    ensures r.Some? ==> |r.value.values| == |branches|
  {
    if props == [] then None
    else if props[0].role.Property? && TagValues(branches, props[0].role.name, []).Some? then
      Some(Tag(props[0].role.name, TagValues(branches, props[0].role.name, []).value))
    else TagAmong(props[1..], branches)
  }

  function TagOf(branches: seq<Schema>): (r: Option<Tag>)
    ensures r.Some? ==> |r.value.values| == |branches|
  {
    if branches == [] || !branches[0].Node? then None else TagAmong(branches[0].kids, branches)
  }

  function Position(values: seq<Value>, v: Value): (r: Option<nat>)
    ensures r.Some? ==> r.value < |values|
  {
    if values == [] then None
    else if Equal(values[0], v) then Some(0)
    else match Position(values[1..], v) case None => None case Some(i) => Some(i + 1)
  }

  function DeclaredKeys(branch: Schema, fields: seq<Field>): nat {
    if fields == [] || !branch.Node? then 0
    else (if HasProperty(branch.kids, fields[0].key) then 1 else 0) + DeclaredKeys(branch, fields[1..])
  }

  datatype Blame = Blame(errors: seq<Error>, declared: nat)

  /** More declared keys win, then the longer path of the first error. */
  predicate Better(errors: seq<Error>, declared: nat, best: Option<Blame>)
    requires errors != [] && (best.Some? ==> best.value.errors != [])
  {
    best.None? || declared > best.value.declared
    || (declared == best.value.declared && |errors[0].path| > |best.value.errors[0].path|)
  }

  // ---------------------------------------------------------------------------
  // The walk
  // ---------------------------------------------------------------------------

  predicate Ok(env: Env, s: Schema, v: Value) { Check(env, s, v, 0) }

  function Walk(env: Env, s: Schema, v: Value, path: string, depth: nat): seq<Error>
    decreases Room(env.maxDepth, depth), 0
  {
    if depth >= env.maxDepth then [Error(path, "maxDepth")]
    else match s
      case Allow(any) => Says(!any, path, "false")
      case Node(k, kids) => if Ok(env, s, v) then [] else WalkNode(env, k, kids, v, path, depth + 1)
  }

  function WalkNode(env: Env, k: Local, kids: seq<Kid>, v: Value, path: string, depth: nat): seq<Error>
    decreases Room(env.maxDepth, depth), 5
  {
    if !TypeOk(k, v) then [Error(path, "type")]
    else
      Says(!EnumOk(k, v), path, "enum")
      + Says(!ConstOk(k, v), path, "const")
      + (if v.Str? then WalkText(env, k, v.s, path) else [])
      + (if v.Num? then WalkNumber(env, k, v.n, path) else [])
      + (if v.Obj? then WalkObject(env, k, kids, v, path, depth) else [])
      + (if v.Arr? then WalkArray(env, k, kids, v.items, path, depth) else [])
      + WalkRole(env, kids, AllOf, v, path, depth)
      + (if k.anyOf then WalkUnion(env, Branches(kids, AnyOf), v, path, depth, false) else [])
      + (if k.oneOf then WalkUnion(env, Branches(kids, OneOf), v, path, depth, true) else [])
      + Says(First(kids, Not).Some? && Ok(env, First(kids, Not).value, v), path, "not")
      + WalkIf(env, kids, v, path, depth)
  }

  /** All schemas in one role on the value itself. */
  function WalkRole(env: Env, kids: seq<Kid>, r: Role, v: Value, path: string, depth: nat): seq<Error>
    decreases Room(env.maxDepth, depth), 1, |kids|
  {
    if kids == [] then []
    else
      (if kids[0].role == r then Walk(env, kids[0].schema, v, path, depth) else [])
      + WalkRole(env, kids[1..], r, v, path, depth)
  }

  function WalkObject(env: Env, k: Local, kids: seq<Kid>, v: Value, path: string, depth: nat): seq<Error>
    requires v.Obj?
    decreases Room(env.maxDepth, depth), 4
  {
    Missing(k.required, v.fields, path, "required")
    + WalkProperties(env, kids, v.fields, path, depth)
    + WalkFields(env, kids, v.fields, path, depth)
    + Says(k.minProperties.Some? && |v.fields| < k.minProperties.value, path, "minProperties")
    + Says(k.maxProperties.Some? && |v.fields| > k.maxProperties.value, path, "maxProperties")
    + WalkNeeds(k.dependentRequired, v.fields, path)
    + WalkDependents(env, kids, v, path, depth)
  }

  function WalkProperties(env: Env, kids: seq<Kid>, fields: seq<Field>, path: string, depth: nat): seq<Error>
    decreases Room(env.maxDepth, depth), 1, |kids|
  {
    if kids == [] then []
    else
      (if kids[0].role.Property? && Has(fields, kids[0].role.name)
       then
         var name := kids[0].role.name;
         Walk(env, kids[0].schema, Get(fields, name).value, AppendPointer(path, name), depth)
       else [])
      + WalkProperties(env, kids[1..], fields, path, depth)
  }

  function WalkFields(env: Env, kids: seq<Kid>, fields: seq<Field>, path: string, depth: nat): seq<Error>
    decreases Room(env.maxDepth, depth), 3, |fields|
  {
    if fields == [] then []
    else WalkField(env, kids, fields[0], path, depth) + WalkFields(env, kids, fields[1..], path, depth)
  }

  function WalkField(env: Env, kids: seq<Kid>, f: Field, path: string, depth: nat): seq<Error>
    decreases Room(env.maxDepth, depth), 2
  {
    var here := AppendPointer(path, f.key);
    WalkPatterns(env, kids, f, path, depth)
    + (if !Claimed(env, kids, f.key) && First(kids, Additional).Some? then
         if First(kids, Additional).value == Allow(false) then [Error(here, "additionalProperties")]
         else Walk(env, First(kids, Additional).value, f.value, here, depth)
       else [])
    + Says(
        First(kids, PropertyNames).Some? && !Ok(env, First(kids, PropertyNames).value, Str(f.key)), here,
        "propertyNames")
  }

  function WalkPatterns(env: Env, kids: seq<Kid>, f: Field, path: string, depth: nat): seq<Error>
    decreases Room(env.maxDepth, depth), 1, |kids|
  {
    if kids == [] then []
    else
      (if !kids[0].role.PatternProperty? then []
       else match env.matches(kids[0].role.pattern, f.key)
         case Matched => Walk(env, kids[0].schema, f.value, AppendPointer(path, f.key), depth)
         case NotMatched => []
         case LimitExceeded => [Error(AppendPointer(path, f.key), "patternProperties")])
      + WalkPatterns(env, kids[1..], f, path, depth)
  }

  function WalkDependents(env: Env, kids: seq<Kid>, v: Value, path: string, depth: nat): seq<Error>
    requires v.Obj?
    decreases Room(env.maxDepth, depth), 1, |kids|
  {
    if kids == [] then []
    else
      (if kids[0].role.Dependent? && Has(v.fields, kids[0].role.name)
       then Walk(env, kids[0].schema, v, path, depth) else [])
      + WalkDependents(env, kids[1..], v, path, depth)
  }

  function WalkArray(env: Env, k: Local, kids: seq<Kid>, items: seq<Value>, path: string, depth: nat): seq<Error>
    decreases Room(env.maxDepth, depth), 4
  {
    WalkItems(env, kids, items, 0, path, depth)
    + WalkItemCounts(k, items, path)
    + (match First(kids, Contains)
       case None => []
       case Some(s) =>
         var n := CountPassing(env, s, items, 0);
         Says(n < k.minContains || !AtMost(n, k.maxContains), path, "contains"))
  }

  function WalkItems(env: Env, kids: seq<Kid>, items: seq<Value>, i: nat, path: string, depth: nat): seq<Error>
    requires i <= |items|
    decreases Room(env.maxDepth, depth), 1, |items| - i
  {
    if i == |items| then []
    else
      (if ItemSchema(kids, i).Some?
       then Walk(env, ItemSchema(kids, i).value, items[i], path + "/" + Digits(i), depth) else [])
      + WalkItems(env, kids, items, i + 1, path, depth)
  }

  function WalkUnion(
    env: Env, branches: seq<Schema>, v: Value, path: string, depth: nat, exactlyOne: bool): seq<Error>
    decreases Room(env.maxDepth, depth), 2
  {
    var matches := Passing(env, branches, v, 0);
    var keyword := if exactlyOne then "oneOf" else "anyOf";
    if matches == 1 || (!exactlyOne && matches > 0) then []
    else if matches > 1 then [Error(path, keyword)]
    else
      var tag := if v.Obj? then TagOf(branches) else None;
      if tag.Some? then
        var actual := Get(v.fields, tag.value.key);
        var at := if actual.Some? then Position(tag.value.values, actual.value) else None;
        if at.Some? then Walk(env, branches[at.value], v, path, depth)
        else [Error(AppendPointer(path, tag.value.key), keyword)]
      else
        var best := BestBlame(env, branches, v, path, depth, None);
        if best.Some? then best.value.errors else [Error(path, keyword)]
  }

  function BestBlame(
    env: Env, branches: seq<Schema>, v: Value, path: string, depth: nat, best: Option<Blame>): (r: Option<Blame>)
    requires best.Some? ==> best.value.errors != []
    ensures r.Some? ==> r.value.errors != []
    decreases Room(env.maxDepth, depth), 1, |branches|
  {
    if branches == [] then best
    else
      var errors := Walk(env, branches[0], v, path, depth);
      var declared := if v.Obj? then DeclaredKeys(branches[0], v.fields) else 0;
      BestBlame(
        env, branches[1..], v, path, depth,
        if errors != [] && Better(errors, declared, best) then Some(Blame(errors, declared)) else best)
  }

  function WalkIf(env: Env, kids: seq<Kid>, v: Value, path: string, depth: nat): seq<Error>
    decreases Room(env.maxDepth, depth), 1
  {
    match First(kids, If)
    case None => []
    case Some(cond) =>
      var branch := First(kids, if Ok(env, cond, v) then Then else Else);
      if branch.Some? then Walk(env, branch.value, v, path, depth) else []
  }

  /** What the validator reports: nothing for a value it accepts, and for any other
      at least one error, a general one if the walk finds none. */
  function Errors(env: Env, s: Schema, v: Value): (errors: seq<Error>)
    ensures errors == [] <==> Check(env, s, v, 0)
  {
    if Check(env, s, v, 0) then []
    else
      var found := Walk(env, s, v, "", 0);
      if found == [] then [Error("", "schema")] else found
  }
}
