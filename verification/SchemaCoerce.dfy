/** The three passes that make lenient arguments fit a schema without references:
    dropping optional nulls, converting by the shape of the schema, and coercing
    primitives. A value that is already valid comes through unchanged. */
module SchemaCoerce {
  import opened Depths
  import opened Options
  import opened SchemaModel
  import opened SchemaCheck

  /** How text is read as a number, a truth value or nothing, and numbers written. */
  datatype Texts = Texts(
    strict: string -> Option<real>,
    loose: string -> Option<real>,
    truth: string -> Option<bool>,
    isNull: string -> bool,
    show: real -> string)

  datatype Pass = DropNulls | Convert | Coerce

  /** What the ends of the 64-bit range are as doubles. */
  const I64_MAX := 9223372036854775808.0
  const I64_MIN := -9223372036854775808.0

  function Truncate(n: real): real { if n >= 0.0 then n.Floor as real else -((-n).Floor as real) }

  /** The cast to a 64-bit integer. */
  function ToI64(n: real): real {
    var t := Truncate(n);
    if t > I64_MAX then I64_MAX else if t < I64_MIN then I64_MIN else t
  }

  function TryNumber(t: Texts, v: Value): Option<real> {
    match v
    case Num(n) => Some(n)
    case Bool(b) => Some(if b then 1.0 else 0.0)
    case Null => Some(0.0)
    case Str(s) => t.loose(s)
    case _ => None
  }

  function TryBoolean(t: Texts, v: Value): Option<bool> {
    match v
    case Bool(b) => Some(b)
    case Num(n) => if n == 0.0 then Some(false) else if n == 1.0 then Some(true) else None
    case Null => Some(false)
    case Str(s) => t.truth(s)
    case _ => None
  }

  function TryString(t: Texts, v: Value): Option<Value> {
    match v
    case Str(_) => Some(v)
    case Bool(b) => Some(Str(if b then "true" else "false"))
    case Num(n) => Some(Str(t.show(n)))
    case Null => Some(Str("null"))
    case _ => None
  }

  predicate ReadsAsNull(t: Texts, v: Value) {
    v.Null? || v == Bool(false) || v == Num(0.0) || (v.Str? && t.isNull(v.s))
  }

  function ConvertLiteral(t: Texts, literal: Value, v: Value): Value {
    if Equal(literal, v) then v
    else
      var converted := match literal
        case Str(_) => TryString(t, v)
        case Num(_) => (match TryNumber(t, v) case Some(n) => Some(Num(n)) case None => None)
        case Bool(_) => (match TryBoolean(t, v) case Some(b) => Some(Value.Bool(b)) case None => None)
        case _ => None;
      if converted.Some? && Equal(converted.value, literal) then literal else v
  }

  function CoercePrimitive(t: Texts, v: Value, target: string): Value {
    match target
    case "number" =>
      if v.Null? then Num(0.0)
      else if v.Str? && t.strict(v.s).Some? then Num(t.strict(v.s).value)
      else if v.Bool? then Num(if v.b then 1.0 else 0.0)
      else v
    case "integer" =>
      if v.Null? then Num(0.0)
      else if v.Str? && t.strict(v.s).Some? && IsIntegral(t.strict(v.s).value) then Num(ToI64(t.strict(v.s).value))
      else if v.Bool? then Num(if v.b then 1.0 else 0.0)
      else v
    case "boolean" =>
      if v.Null? then Value.Bool(false)
      else if v == Str("true") || v == Num(1.0) then Value.Bool(true)
      else if v == Str("false") || v == Num(0.0) then Value.Bool(false)
      else v
    case "string" =>
      if v.Null? then Str("")
      else if v.Num? then Str(t.show(v.n))
      else if v.Bool? then Str(if v.b then "true" else "false")
      else v
    case "null" => if v == Str("") || v == Num(0.0) || v == Value.Bool(false) then Null else v
    case _ => v
  }

  function ItemSchemaAt(k: Local, kids: seq<Kid>, i: nat): Option<Schema> {
    if i < PrefixLength(kids) then First(kids, Prefix(i))
    else if k.itemsIsList then None
    else First(kids, Rest)
  }

  predicate Passes(env: Env, s: Schema, v: Value) { Check(env, s, v, 0) }

  predicate HasRole(kids: seq<Kid>, r: Role) { First(kids, r).Some? }

  /** `properties` or `patternProperties` is there. */
  predicate HasProperties(k: Local, kids: seq<Kid>) {
    k.properties || exists i :: 0 <= i < |kids| && (kids[i].role.Property? || kids[i].role.PatternProperty?)
  }

  predicate HasMembers(k: Local, kids: seq<Kid>) { HasProperties(k, kids) || HasRole(kids, Additional) }

  predicate HasAllOf(k: Local, kids: seq<Kid>) { k.allOf || HasRole(kids, AllOf) }

  /** Items have schemas of their own, be it none: `items` is a list, or `prefixItems` is there. */
  predicate HasPrefix(k: Local, kids: seq<Kid>) { k.itemsIsList || k.prefixItems || PrefixLength(kids) > 0 }

  predicate HasItems(k: Local, kids: seq<Kid>) { HasRole(kids, Rest) || HasPrefix(k, kids) }

  // ---------------------------------------------------------------------------
  // The passes
  // ---------------------------------------------------------------------------

  function Run(pass: Pass, env: Env, t: Texts, s: Schema, v: Value, depth: nat): Value
    decreases Room(env.maxDepth, depth), 0
  {
    if depth >= env.maxDepth || s.Allow? then v
    else match pass
      case DropNulls => RunParts(pass, env, t, s.local, s.kids, v, depth + 1)
      case Convert => ConvertNode(env, t, s, v, depth + 1)
      case Coerce => CoerceNode(env, t, s.local, s.kids, v, depth + 1)
  }

  /** The items of an array and the fields of an object, each by its own schema. */
  function RunParts(pass: Pass, env: Env, t: Texts, k: Local, kids: seq<Kid>, v: Value, depth: nat): Value
    decreases Room(env.maxDepth, depth), 4
  {
    match v
    case Arr(items) => Arr(RunItems(pass, env, t, k, kids, items, 0, depth))
    case Obj(fields) => Obj(RunFields(pass, env, t, k, kids, fields, depth))
    case _ => v
  }

  function RunItems(
    pass: Pass, env: Env, t: Texts, k: Local, kids: seq<Kid>, items: seq<Value>, i: nat, depth: nat): seq<Value>
    decreases Room(env.maxDepth, depth), 1, |items|
  {
    if items == [] then []
    else
      var s := ItemSchemaAt(k, kids, i);
      [if s.Some? then Run(pass, env, t, s.value, items[0], depth) else items[0]]
      + RunItems(pass, env, t, k, kids, items[1..], i + 1, depth)
  }

  function RunFields(
    pass: Pass, env: Env, t: Texts, k: Local, kids: seq<Kid>, fields: seq<Field>, depth: nat): seq<Field>
    decreases Room(env.maxDepth, depth), 3, |fields|
  {
    if fields == [] then []
    else
      RunField(pass, env, t, k, kids, fields[0], depth)
      + RunFields(pass, env, t, k, kids, fields[1..], depth)
  }

  /** A null for an optional property that does not allow it goes; any other field
      passes its property, the patterns that match it, or else the schema for the
      rest. */
  function RunField(pass: Pass, env: Env, t: Texts, k: Local, kids: seq<Kid>, f: Field, depth: nat): seq<Field>
    decreases Room(env.maxDepth, depth), 2
  {
    var property := First(kids, Property(f.key));
    if pass.DropNulls? && property.Some? && f.value.Null? && f.key !in k.required && !Passes(env, property.value, Null)
    then []
    else
      var v1 := if property.Some? then Run(pass, env, t, property.value, f.value, depth) else f.value;
      var v2 := RunPatterns(pass, env, t, kids, f.key, v1, depth);
      var additional := First(kids, Additional);
      var v3 :=
        if !Claimed(env, kids, f.key) && additional.Some? then Run(pass, env, t, additional.value, v2, depth) else v2;
      [Field(f.key, v3)]
  }

  function RunPatterns(pass: Pass, env: Env, t: Texts, kids: seq<Kid>, key: string, v: Value, depth: nat): Value
    decreases Room(env.maxDepth, depth), 1, |kids|
  {
    if kids == [] then v
    else
      RunPatterns(
        pass, env, t, kids[1..], key,
        if kids[0].role.PatternProperty? && env.matches(kids[0].role.pattern, key) == Matched
        then Run(pass, env, t, kids[0].schema, v, depth) else v,
        depth)
  }

  /** The schemas of a role one after the other. */
  function RunRole(pass: Pass, env: Env, t: Texts, kids: seq<Kid>, r: Role, v: Value, depth: nat): Value
    decreases Room(env.maxDepth, depth), 1, |kids|
  {
    if kids == [] then v
    else
      RunRole(
        pass, env, t, kids[1..], r, if kids[0].role == r then Run(pass, env, t, kids[0].schema, v, depth) else v, depth)
  }

  // --- convert -----------------------------------------------------------------

  function ConvertNode(env: Env, t: Texts, s: Schema, v: Value, depth: nat): Value
    requires s.Node?
    decreases Room(env.maxDepth, depth), 8
  {
    var k, kids := s.local, s.kids;
    if k.constant.Some? then ConvertLiteral(t, k.constant.value, v)
    else if k.enumeration.Some? then ConvertEnum(env, t, s, k.enumeration.value, v)
    else if k.anyOf then ConvertUnion(env, t, s, Branches(kids, AnyOf), v, depth)
    else if k.oneOf then ConvertUnion(env, t, s, Branches(kids, OneOf), v, depth)
    else if HasAllOf(k, kids) then ConvertMembers(env, t, s, RunRole(Convert, env, t, kids, AllOf, v, depth), depth)
    else if k.types != [] && !k.typeIsList then ConvertByType(env, t, k, kids, k.types[0], v, depth)
    else if HasProperties(k, kids) then ConvertObject(env, t, k, kids, v, depth)
    else if HasItems(k, kids) then ConvertArray(env, t, k, kids, v, depth)
    else v
  }

  function ConvertByType(env: Env, t: Texts, k: Local, kids: seq<Kid>, target: string, v: Value, depth: nat): Value
    decreases Room(env.maxDepth, depth), 5
  {
    match target
    case "string" => (match TryString(t, v) case Some(s) => s case None => v)
    case "number" => (match TryNumber(t, v) case Some(n) => Num(n) case None => v)
    case "integer" => (match TryNumber(t, v) case Some(n) => Num(ToI64(n)) case None => v)
    case "boolean" => (match TryBoolean(t, v) case Some(b) => Value.Bool(b) case None => v)
    case "null" => if ReadsAsNull(t, v) then Null else v
    case "array" => ConvertArray(env, t, k, kids, v, depth)
    case "object" => ConvertObject(env, t, k, kids, v, depth)
    case _ => v
  }

  function ConvertObject(env: Env, t: Texts, k: Local, kids: seq<Kid>, v: Value, depth: nat): Value
    decreases Room(env.maxDepth, depth), 4
  {
    if v.Obj? then Obj(RunFields(Convert, env, t, k, kids, v.fields, depth)) else v
  }

  /** A single value where an array without a prefix is expected becomes one. */
  function ConvertArray(env: Env, t: Texts, k: Local, kids: seq<Kid>, v: Value, depth: nat): Value
    decreases Room(env.maxDepth, depth), 2
  {
    if v.Arr? then Arr(RunItems(Convert, env, t, k, kids, v.items, 0, depth))
    else if HasPrefix(k, kids) then v
    else
      var item := First(kids, Rest);
      Arr([if item.Some? && item.value.Node? && depth < env.maxDepth
           then Run(Convert, env, t, item.value, v, depth + 1) else v])
  }

  function ConvertMembers(env: Env, t: Texts, s: Schema, v: Value, depth: nat): Value
    requires s.Node?
    decreases Room(env.maxDepth, depth), 5
  {
    if HasMembers(s.local, s.kids) then ConvertObject(env, t, s.local, s.kids, v, depth) else v
  }

  function ConvertEnum(env: Env, t: Texts, s: Schema, members: seq<Value>, v: Value): Value {
    if exists i :: 0 <= i < |members| && Equal(members[i], v) then v else PickMember(env, t, s, members, v)
  }

  function PickMember(env: Env, t: Texts, s: Schema, members: seq<Value>, v: Value): Value {
    if members == [] then v
    else
      var candidate := ConvertLiteral(t, members[0], v);
      if !Equal(candidate, v) && Passes(env, s, candidate) then candidate else PickMember(env, t, s, members[1..], v)
  }

  function ConvertUnion(env: Env, t: Texts, s: Schema, branches: seq<Schema>, v: Value, depth: nat): Value
    requires s.Node?
    decreases Room(env.maxDepth, depth), 7
  {
    if Passing(env, branches, v, 0) > 0 then ConvertMembers(env, t, s, v, depth)
    else ConvertToBranch(env, t, s, branches, v, depth)
  }

  function ConvertToBranch(env: Env, t: Texts, s: Schema, branches: seq<Schema>, v: Value, depth: nat): Value
    requires s.Node?
    decreases Room(env.maxDepth, depth), 6, |branches|
  {
    if branches == [] then ConvertMembers(env, t, s, v, depth)
    else
      var candidate := ConvertMembers(env, t, s, Run(Convert, env, t, branches[0], v, depth), depth);
      if Passes(env, s, candidate) then candidate else ConvertToBranch(env, t, s, branches[1..], v, depth)
  }

  // --- coerce ------------------------------------------------------------------

  function CoerceNode(env: Env, t: Texts, k: Local, kids: seq<Kid>, v: Value, depth: nat): Value
    decreases Room(env.maxDepth, depth), 4
  {
    var v1 := RunRole(Coerce, env, t, kids, AllOf, v, depth);
    var v2 := if k.anyOf then CoerceUnion(env, t, Branches(kids, AnyOf), v1, depth) else v1;
    var v3 := if k.oneOf then CoerceUnion(env, t, Branches(kids, OneOf), v2, depth) else v2;
    var v4 := if |k.types| > 1 && TypeOk(k, v3) then v3 else CoerceTo(t, k.types, v3);
    var v5 := if "object" in k.types && v4.Obj? then Obj(RunFields(Coerce, env, t, k, kids, v4.fields, depth)) else v4;
    if "array" in k.types && v5.Arr? then Arr(RunItems(Coerce, env, t, k, kids, v5.items, 0, depth)) else v5
  }

  /** The first type the value can be coerced to. */
  function CoerceTo(t: Texts, types: seq<string>, v: Value): Value {
    if types == [] then v
    else
      var candidate := CoercePrimitive(t, v, types[0]);
      if !Equal(candidate, v) then candidate else CoerceTo(t, types[1..], v)
  }

  function CoerceUnion(env: Env, t: Texts, branches: seq<Schema>, v: Value, depth: nat): Value
    decreases Room(env.maxDepth, depth), 2
  {
    if Passing(env, branches, v, 0) > 0 then v else CoerceToBranch(env, t, branches, v, depth)
  }

  function CoerceToBranch(env: Env, t: Texts, branches: seq<Schema>, v: Value, depth: nat): Value
    decreases Room(env.maxDepth, depth), 1, |branches|
  {
    if branches == [] then v
    else
      var coerced := Run(Coerce, env, t, branches[0], v, depth);
      if Passes(env, branches[0], coerced) then coerced else CoerceToBranch(env, t, branches[1..], v, depth)
  }

  // --- all three ---------------------------------------------------------------

  function CoerceValue(env: Env, t: Texts, s: Schema, v: Value): Value {
    var dropped := Run(DropNulls, env, t, s, v, 0);
    var converted := Run(Convert, env, t, s, dropped, 0);
    Run(Coerce, env, t, s, converted, 0)
  }

  /** Coercing, then checking: the value to use, or nothing. */
  function Parse(env: Env, t: Texts, s: Schema, v: Value): (r: Option<Value>)
    ensures r.Some? ==> Passes(env, s, r.value)
  {
    var target := CoerceValue(env, t, s, v);
    if Passes(env, s, target) then Some(target) else None
  }
}
