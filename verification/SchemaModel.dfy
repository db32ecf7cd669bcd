/** JSON values and JSON schemas as the validator sees them. */
module SchemaModel {
  import opened Options

  datatype Value =
    | Null
    | Bool(b: bool)
    | Num(n: real)
    | Str(s: string)
    | Arr(items: seq<Value>)
    | Obj(fields: seq<Field>)

  datatype Field = Field(key: string, value: Value)

  /** What a bounded regular expression match says. */
  datatype Outcome = Matched | NotMatched | LimitExceeded

  /** Regular expressions, formats and the multiple-of test are taken as they are. */
  datatype Env = Env(
    matches: (string, string) -> Outcome,
    format: (string, string) -> bool,
    multiple: (real, real) -> bool,
    maxDepth: nat)

  /** An exclusive bound is a number, or the older flag on the inclusive one. */
  datatype Exclusive = NoBound | Bound(n: real) | Flag

  /** The keywords of an object schema that hold no schemas, in which of two forms
      `type` and `items` were given, and which keywords for lists or maps of
      schemas are there, if only with an empty one. */
  datatype Local = Local(
    types: seq<string>,
    typeIsList: bool,
    itemsIsList: bool,
    constant: Option<Value>,
    enumeration: Option<seq<Value>>,
    minLength: Option<nat>,
    maxLength: Option<nat>,
    pattern: Option<string>,
    format: Option<string>,
    minimum: Option<real>,
    maximum: Option<real>,
    exclusiveMinimum: Exclusive,
    exclusiveMaximum: Exclusive,
    multipleOf: Option<real>,
    required: seq<string>,
    minProperties: Option<nat>,
    maxProperties: Option<nat>,
    dependentRequired: seq<Dependence>,
    dependencies: seq<Dependence>,
    minItems: Option<nat>,
    maxItems: Option<nat>,
    uniqueItems: bool,
    minContains: nat,
    maxContains: Option<nat>,
    anyOf: bool,
    oneOf: bool,
    allOf: bool,
    properties: bool,
    prefixItems: bool)

  datatype Dependence = Dependence(key: string, needs: seq<string>)

  /** The place of a schema inside another one. */
  datatype Role =
    | Property(name: string)
    | PatternProperty(pattern: string)
    | Additional
    | PropertyNames
    | Dependent(name: string)
    | Dependency(name: string)
    | Prefix(index: nat)
    | Rest
    | Contains
    | AllOf
    | AnyOf
    | OneOf
    | Not
    | If
    | Then
    | Else

  datatype Schema = Allow(any: bool) | Node(local: Local, kids: seq<Kid>)

  datatype Kid = Kid(role: Role, schema: Schema)

  const NO_KEYWORDS := Local(
    [], false, false, None, None, None, None, None, None, None, None, NoBound, NoBound, None,
    [], None, None, [], [], None, None, false, 1, None, false, false, false, false, false)

  // ---------------------------------------------------------------------------
  // Values
  // ---------------------------------------------------------------------------

  function Get(fields: seq<Field>, key: string): Option<Value> {
    if fields == [] then None
    else if fields[0].key == key then Some(fields[0].value)
    else Get(fields[1..], key)
  }

  predicate Has(fields: seq<Field>, key: string) { Get(fields, key).Some? }

  predicate IsIntegral(n: real) { n == n.Floor as real }

  predicate MatchesType(v: Value, expected: string) {
    match expected
    case "string" => v.Str?
    case "number" => v.Num?
    case "integer" => v.Num? && IsIntegral(v.n)
    case "boolean" => v.Bool?
    case "null" => v.Null?
    case "array" => v.Arr?
    case "object" => v.Obj?
    case _ => false
  }

  predicate Equal(a: Value, b: Value) {
    match (a, b)
    case (Num(x), Num(y)) => x == y
    case (Arr(xs), Arr(ys)) => |xs| == |ys| && forall i :: 0 <= i < |xs| ==> Equal(xs[i], ys[i])
    case (Obj(fs), Obj(gs)) =>
      |fs| == |gs| &&
      forall i :: 0 <= i < |fs| ==> Get(gs, fs[i].key).Some? && Equal(fs[i].value, Get(gs, fs[i].key).value)
    case (_, _) => a == b
  }

  predicate HasUniqueItems(items: seq<Value>) {
    forall i, j :: 0 <= j < i < |items| ==> !Equal(items[i], items[j])
  }

  function Values(fields: seq<Field>): seq<Value> {
    seq(|fields|, i requires 0 <= i < |fields| => fields[i].value)
  }

  // ---------------------------------------------------------------------------
  // Schemas
  // ---------------------------------------------------------------------------

  function First(kids: seq<Kid>, role: Role): Option<Schema> {
    if kids == [] then None
    else if kids[0].role == role then Some(kids[0].schema)
    else First(kids[1..], role)
  }

  function Branches(kids: seq<Kid>, role: Role): seq<Schema> {
    if kids == [] then []
    else (if kids[0].role == role then [kids[0].schema] else []) + Branches(kids[1..], role)
  }

  /** The schema of the item at `i`: its own, or the one for all the others. */
  function ItemSchema(kids: seq<Kid>, i: nat): Option<Schema> {
    if i < PrefixLength(kids) then First(kids, Prefix(i)) else First(kids, Rest)
  }

  function PrefixLength(kids: seq<Kid>): nat {
    if kids == [] then 0 else (if kids[0].role.Prefix? then 1 else 0) + PrefixLength(kids[1..])
  }

  function Height(s: Schema): nat {
    match s
    case Allow(_) => 1
    case Node(_, kids) => 1 + MaxHeight(kids)
  }

  function HeightOf(kid: Kid): nat { Height(kid.schema) }

  function MaxHeight(kids: seq<Kid>): nat {
    if kids == [] then 0
    else
      var h, rest := HeightOf(kids[0]), MaxHeight(kids[1..]);
      if h > rest then h else rest
  }

  lemma {:induction false} KidHeight(kids: seq<Kid>, i: nat)
    requires i < |kids|
    ensures Height(kids[i].schema) <= MaxHeight(kids)
  {
    if i > 0 {
      KidHeight(kids[1..], i - 1);
    }
  }

  lemma {:induction false} BranchHeight(kids: seq<Kid>, role: Role, i: nat)
    requires i < |Branches(kids, role)|
    ensures Height(Branches(kids, role)[i]) <= MaxHeight(kids)
  {
    if kids[0].role == role {
      if i > 0 {
        BranchHeight(kids[1..], role, i - 1);
      }
    } else {
      BranchHeight(kids[1..], role, i);
    }
  }

  lemma {:induction false} FirstHeight(kids: seq<Kid>, role: Role)
    ensures First(kids, role).Some? ==> Height(First(kids, role).value) <= MaxHeight(kids)
  {
    if kids != [] && kids[0].role != role {
      FirstHeight(kids[1..], role);
    }
  }
}
