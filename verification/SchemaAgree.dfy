/** The explainer complains about a value exactly when the check rejects it. */
module SchemaAgree {
  import opened Depths
  import opened Options
  import opened SchemaModel
  import opened SchemaCheck
  import opened SchemaExplain

  /** The two ways in which the explainer looks at less than the check: `dependencies`,
      and flags for exclusive bounds. */
  predicate PlainLocal(k: Local) {
    k.dependencies == [] && !k.exclusiveMinimum.Flag? && !k.exclusiveMaximum.Flag?
  }

  predicate Plain(s: Schema) {
    match s
    case Allow(_) => true
    case Node(k, kids) => PlainLocal(k) && PlainKids(kids)
  }

  predicate PlainKid(kid: Kid) { !kid.role.Dependency? && Plain(kid.schema) }

  predicate PlainKids(kids: seq<Kid>) { kids == [] || (PlainKid(kids[0]) && PlainKids(kids[1..])) }

  lemma {:induction false} PlainAt(kids: seq<Kid>, i: nat)
    requires PlainKids(kids) && i < |kids|
    ensures PlainKid(kids[i])
  {
    if i > 0 {
      PlainAt(kids[1..], i - 1);
    }
  }

  // ---------------------------------------------------------------------------
  // Keywords that hold no schemas
  // ---------------------------------------------------------------------------

  lemma TextAgrees(env: Env, k: Local, v: Value, path: string)
    requires v.Str?
    ensures WalkText(env, k, v.s, path) == [] <==> TextOk(env, k, v)
  {
  }

  /** The keywords as the explainer looks at them. */
  function Seen(k: Local): Local {
    k.(dependencies := [],
       exclusiveMinimum := if k.exclusiveMinimum.Flag? then NoBound else k.exclusiveMinimum,
       exclusiveMaximum := if k.exclusiveMaximum.Flag? then NoBound else k.exclusiveMaximum)
  }

  lemma NumberAgrees(env: Env, k: Local, v: Value, path: string)
    requires v.Num?
    ensures WalkNumber(env, k, v.n, path) == [] <==> NumberOk(env, Seen(k), v)
  {
  }

  lemma {:induction false} MissingAgrees(names: seq<string>, fields: seq<Field>, path: string, keyword: string)
    ensures Missing(names, fields, path, keyword) == [] <==> forall i :: 0 <= i < |names| ==> Has(fields, names[i])
  {
    if names != [] {
      MissingAgrees(names[1..], fields, path, keyword);
      assert forall i :: 1 <= i < |names| ==> names[i] == names[1..][i - 1];
    }
  }

  lemma {:induction false} NeedsAgree(deps: seq<Dependence>, fields: seq<Field>, path: string)
    ensures WalkNeeds(deps, fields, path) == [] <==> NeedsMet(deps, fields)
  {
    hide Missing;
    if deps != [] {
      NeedsAgree(deps[1..], fields, path);
      MissingAgrees(deps[0].needs, fields, path, "dependentRequired");
      assert forall i :: 1 <= i < |deps| ==> deps[i] == deps[1..][i - 1];
    }
  }

  // ---------------------------------------------------------------------------
  // When the explainer is silent
  // ---------------------------------------------------------------------------

  /** The explainer has nothing to say: the value passes, or it passes everything
      the explainer looks at. Where the explainer only asks whether a schema holds
      (names, `contains`, `not`, `if`, branches) the check decides; where it walks
      on, the schema there need only be silent. */
  predicate Silent(env: Env, s: Schema, v: Value)
    decreases Height(s), 0
  {
    match s
    case Allow(any) => any
    case Node(k, kids) => Check(env, s, v, 0) || SilentNode(env, k, kids, v)
  }

  predicate SilentNode(env: Env, k: Local, kids: seq<Kid>, v: Value)
    decreases MaxHeight(kids), 4
  {
    && LocalOk(env, Seen(k), v)
    && (v.Obj? ==>
          && SilentProperties(env, kids, v.fields) && SilentDependents(env, kids, v)
          && SilentFields(env, kids, v.fields))
    && (v.Arr? ==> SilentItems(env, kids, v.items, 0) && ContainsOk(env, k, kids, v, 0))
    && SilentRole(env, kids, AllOf, v)
    && (k.anyOf ==> SilentUnion(env, kids, AnyOf, v, false))
    && (k.oneOf ==> SilentUnion(env, kids, OneOf, v, true))
    && (First(kids, Not).Some? ==> !Check(env, First(kids, Not).value, v, 0))
    && SilentIf(env, kids, v)
  }

  predicate SilentRole(env: Env, kids: seq<Kid>, r: Role, v: Value)
    decreases MaxHeight(kids), 1
  {
    forall i :: 0 <= i < |kids| && kids[i].role == r ==> (KidHeight(kids, i); Silent(env, kids[i].schema, v))
  }

  predicate SilentProperties(env: Env, kids: seq<Kid>, fields: seq<Field>)
    decreases MaxHeight(kids), 1
  {
    forall i :: 0 <= i < |kids| && kids[i].role.Property? && Has(fields, kids[i].role.name) ==>
      (KidHeight(kids, i); Silent(env, kids[i].schema, Get(fields, kids[i].role.name).value))
  }

  predicate SilentDependents(env: Env, kids: seq<Kid>, v: Value)
    requires v.Obj?
    decreases MaxHeight(kids), 1
  {
    forall i :: 0 <= i < |kids| && kids[i].role.Dependent? && Has(v.fields, kids[i].role.name) ==>
      (KidHeight(kids, i); Silent(env, kids[i].schema, v))
  }

  predicate SilentPatterns(env: Env, kids: seq<Kid>, f: Field)
    decreases MaxHeight(kids), 1
  {
    forall j :: 0 <= j < |kids| && kids[j].role.PatternProperty? ==>
      match env.matches(kids[j].role.pattern, f.key)
      case Matched => (KidHeight(kids, j); Silent(env, kids[j].schema, f.value))
      case NotMatched => true
      case LimitExceeded => false
  }

  predicate SilentField(env: Env, kids: seq<Kid>, f: Field)
    decreases MaxHeight(kids), 2
  {
    && SilentPatterns(env, kids, f)
    && (!Claimed(env, kids, f.key) && First(kids, Additional).Some? ==>
          (FirstHeight(kids, Additional); Silent(env, First(kids, Additional).value, f.value)))
    && (First(kids, PropertyNames).Some? ==> Check(env, First(kids, PropertyNames).value, Str(f.key), 0))
  }

  predicate SilentFields(env: Env, kids: seq<Kid>, fields: seq<Field>)
    decreases MaxHeight(kids), 3
  {
    forall i :: 0 <= i < |fields| ==> SilentField(env, kids, fields[i])
  }

  predicate SilentItems(env: Env, kids: seq<Kid>, items: seq<Value>, i: nat)
    decreases MaxHeight(kids), 1
  {
    forall j :: i <= j < |items| && ItemSchema(kids, j).Some? ==>
      (ItemSchemaHeight(kids, j); Silent(env, ItemSchema(kids, j).value, items[j]))
  }

  lemma ItemSchemaHeight(kids: seq<Kid>, i: nat)
    ensures ItemSchema(kids, i).Some? ==> Height(ItemSchema(kids, i).value) <= MaxHeight(kids)
  {
    FirstHeight(kids, Prefix(i));
    FirstHeight(kids, Rest);
  }

  /** The branch that a tag property singles out, if the value carries its constant. */
  function Tagged(branches: seq<Schema>, v: Value): (r: Option<nat>)
    ensures r.Some? ==> r.value < |branches|
  {
    if !v.Obj? || TagOf(branches).None? then None
    else
      var tag := TagOf(branches).value;
      match Get(v.fields, tag.key)
      case None => None
      case Some(actual) => Position(tag.values, actual)
  }

  /** A union that fails is passed over only if no branch holds and the tagged
      branch, which alone is blamed then, is silent. */
  predicate SilentUnion(env: Env, kids: seq<Kid>, r: Role, v: Value, exactlyOne: bool)
    decreases MaxHeight(kids), 1
  {
    var branches := Branches(kids, r);
    var n := Passing(env, branches, v, 0);
    n == 1 || (!exactlyOne && n > 0)
    || (n == 0 && Tagged(branches, v).Some? &&
          (BranchHeight(kids, r, Tagged(branches, v).value); Silent(env, branches[Tagged(branches, v).value], v)))
  }

  predicate SilentIf(env: Env, kids: seq<Kid>, v: Value)
    decreases MaxHeight(kids), 1
  {
    First(kids, If).Some? ==>
      var r := if Check(env, First(kids, If).value, v, 0) then Then else Else;
      First(kids, r).Some? ==> (FirstHeight(kids, r); Silent(env, First(kids, r).value, v))
  }

  // ---------------------------------------------------------------------------
  // The walk of a node, given that of the schemas in it
  // ---------------------------------------------------------------------------

  /** On this schema the walk is silent exactly when it should be. */
  ghost predicate Agrees(env: Env, s: Schema, depth: nat) {
    forall v, path :: Walk(env, s, v, path, depth) == [] <==> Silent(env, s, v)
  }

  ghost predicate KidsAgree(env: Env, kids: seq<Kid>, depth: nat) {
    forall i :: 0 <= i < |kids| ==> Agrees(env, kids[i].schema, depth)
  }

  lemma TailAgrees(env: Env, kids: seq<Kid>, depth: nat)
    requires kids != [] && KidsAgree(env, kids, depth)
    ensures KidsAgree(env, kids[1..], depth) && Agrees(env, kids[0].schema, depth)
  {
  }

  lemma {:induction false} FirstAgrees(env: Env, kids: seq<Kid>, r: Role, depth: nat)
    requires KidsAgree(env, kids, depth)
    ensures First(kids, r).Some? ==> Agrees(env, First(kids, r).value, depth)
  {
    if kids != [] {
      TailAgrees(env, kids, depth);
      if kids[0].role != r {
        FirstAgrees(env, kids[1..], r, depth);
      }
    }
  }

  lemma {:induction false} RoleAgrees(env: Env, kids: seq<Kid>, r: Role, v: Value, path: string, depth: nat)
    requires KidsAgree(env, kids, depth)
    ensures WalkRole(env, kids, r, v, path, depth) == [] <==> SilentRole(env, kids, r, v)
    decreases |kids|
  {
    hide Silent, Walk, Agrees;
    if kids != [] {
      TailAgrees(env, kids, depth);
      RoleAgrees(env, kids[1..], r, v, path, depth);
      assert forall i :: 1 <= i < |kids| ==> kids[i] == kids[1..][i - 1];
    }
  }

  lemma {:induction false} PropertiesAgree(env: Env, kids: seq<Kid>, fields: seq<Field>, path: string, depth: nat)
    requires KidsAgree(env, kids, depth)
    ensures WalkProperties(env, kids, fields, path, depth) == [] <==> SilentProperties(env, kids, fields)
    decreases |kids|
  {
    hide Silent, Walk, AppendPointer;
    if kids != [] {
      TailAgrees(env, kids, depth);
      PropertiesAgree(env, kids[1..], fields, path, depth);
      assert forall i :: 1 <= i < |kids| ==> kids[i] == kids[1..][i - 1];
    }
  }

  lemma {:induction false} DependentsAgree(env: Env, kids: seq<Kid>, v: Value, path: string, depth: nat)
    requires KidsAgree(env, kids, depth) && v.Obj?
    ensures WalkDependents(env, kids, v, path, depth) == [] <==> SilentDependents(env, kids, v)
    decreases |kids|
  {
    hide Silent, Walk;
    if kids != [] {
      TailAgrees(env, kids, depth);
      DependentsAgree(env, kids[1..], v, path, depth);
      assert forall i :: 1 <= i < |kids| ==> kids[i] == kids[1..][i - 1];
    }
  }

  lemma {:induction false} PatternsAgree(env: Env, kids: seq<Kid>, f: Field, path: string, depth: nat)
    requires KidsAgree(env, kids, depth)
    ensures WalkPatterns(env, kids, f, path, depth) == [] <==> SilentPatterns(env, kids, f)
    decreases |kids|
  {
    hide Silent, Walk, AppendPointer;
    if kids != [] {
      TailAgrees(env, kids, depth);
      PatternsAgree(env, kids[1..], f, path, depth);
      assert forall i :: 1 <= i < |kids| ==> kids[i] == kids[1..][i - 1];
    }
  }

  lemma NothingAllowed(env: Env, v: Value)
    ensures !Silent(env, Allow(false), v)
  {
  }

  lemma FieldAgrees(env: Env, kids: seq<Kid>, f: Field, path: string, depth: nat)
    requires KidsAgree(env, kids, depth)
    ensures WalkField(env, kids, f, path, depth) == [] <==> SilentField(env, kids, f)
  {
    hide Check, Silent, Walk, AppendPointer, Claimed, First, WalkPatterns, SilentPatterns;
    PatternsAgree(env, kids, f, path, depth);
    FirstAgrees(env, kids, Additional, depth);
    NothingAllowed(env, f.value);
  }

  lemma {:induction false} FieldsAgree(env: Env, kids: seq<Kid>, fields: seq<Field>, path: string, depth: nat)
    requires KidsAgree(env, kids, depth)
    ensures WalkFields(env, kids, fields, path, depth) == [] <==> SilentFields(env, kids, fields)
    decreases |fields|
  {
    hide WalkField, SilentField, KidsAgree;
    if fields != [] {
      FieldAgrees(env, kids, fields[0], path, depth);
      FieldsAgree(env, kids, fields[1..], path, depth);
      assert forall i :: 1 <= i < |fields| ==> fields[i] == fields[1..][i - 1];
    }
  }

  lemma ItemSchemaAgrees(env: Env, kids: seq<Kid>, i: nat, depth: nat)
    requires KidsAgree(env, kids, depth)
    ensures ItemSchema(kids, i).Some? ==> Agrees(env, ItemSchema(kids, i).value, depth)
  {
    FirstAgrees(env, kids, Prefix(i), depth);
    FirstAgrees(env, kids, Rest, depth);
  }

  lemma {:induction false} ItemsAgree(env: Env, kids: seq<Kid>, items: seq<Value>, i: nat, path: string, depth: nat)
    requires KidsAgree(env, kids, depth) && i <= |items|
    ensures WalkItems(env, kids, items, i, path, depth) == [] <==> SilentItems(env, kids, items, i)
    decreases |items| - i
  {
    hide Silent, Walk, Digits, ItemSchema, KidsAgree;
    if i < |items| {
      ItemSchemaAgrees(env, kids, i, depth);
      ItemsAgree(env, kids, items, i + 1, path, depth);
    }
  }

  lemma IfAgrees(env: Env, kids: seq<Kid>, v: Value, path: string, depth: nat)
    requires KidsAgree(env, kids, depth)
    ensures WalkIf(env, kids, v, path, depth) == [] <==> SilentIf(env, kids, v)
  {
    hide Check, Silent, Walk, First;
    FirstAgrees(env, kids, Then, depth);
    FirstAgrees(env, kids, Else, depth);
  }

  // ---------------------------------------------------------------------------
  // Unions
  // ---------------------------------------------------------------------------

  lemma {:induction false} BranchAgrees(env: Env, kids: seq<Kid>, r: Role, i: nat, depth: nat)
    requires KidsAgree(env, kids, depth) && i < |Branches(kids, r)|
    ensures Agrees(env, Branches(kids, r)[i], depth)
    decreases |kids|
  {
    hide Agrees;
    TailAgrees(env, kids, depth);
    if kids[0].role != r {
      BranchAgrees(env, kids[1..], r, i, depth);
    } else if i > 0 {
      BranchAgrees(env, kids[1..], r, i - 1, depth);
    }
  }

  /** Whatever branch is blamed, by its tag or by the heuristic, something is said
      unless the union holds or the tagged branch is silent. */
  lemma UnionAgrees(env: Env, kids: seq<Kid>, r: Role, v: Value, path: string, depth: nat, exactlyOne: bool)
    requires KidsAgree(env, kids, depth)
    ensures WalkUnion(env, Branches(kids, r), v, path, depth, exactlyOne) == [] <==>
      SilentUnion(env, kids, r, v, exactlyOne)
  {
    hide Check, Silent, Walk, Passing, TagOf, Position, BestBlame, AppendPointer, Branches, KidsAgree;
    var branches := Branches(kids, r);
    if Tagged(branches, v).Some? {
      BranchAgrees(env, kids, r, Tagged(branches, v).value, depth);
    }
  }

  // ---------------------------------------------------------------------------
  // Nodes
  // ---------------------------------------------------------------------------

  lemma ObjectAgrees(env: Env, k: Local, kids: seq<Kid>, v: Value, path: string, depth: nat)
    requires KidsAgree(env, kids, depth) && v.Obj?
    ensures WalkObject(env, k, kids, v, path, depth) == [] <==>
      && FieldsOk(Seen(k), v) && SilentFields(env, kids, v.fields)
      && SilentProperties(env, kids, v.fields) && SilentDependents(env, kids, v)
  {
    hide Missing, WalkProperties, WalkFields, WalkNeeds, WalkDependents, SilentFields, SilentProperties,
         SilentDependents, KidsAgree, NeedsMet;
    MissingAgrees(k.required, v.fields, path, "required");
    PropertiesAgree(env, kids, v.fields, path, depth);
    FieldsAgree(env, kids, v.fields, path, depth);
    NeedsAgree(k.dependentRequired, v.fields, path);
    NoNeeds(v.fields);
    DependentsAgree(env, kids, v, path, depth);
  }

  lemma NoNeeds(fields: seq<Field>)
    ensures NeedsMet([], fields)
  {
  }

  lemma ArrayAgrees(env: Env, k: Local, kids: seq<Kid>, v: Value, path: string, depth: nat)
    requires KidsAgree(env, kids, depth) && v.Arr?
    ensures WalkArray(env, k, kids, v.items, path, depth) == [] <==>
      ItemsOk(k, v) && SilentItems(env, kids, v.items, 0) && ContainsOk(env, k, kids, v, 0)
  {
    hide WalkItems, KidsAgree, First, CountPassing, HasUniqueItems, SilentItems;
    ItemsAgree(env, kids, v.items, 0, path, depth);
  }

  /** The walk of a node finds nothing exactly when the node is silent. */
  lemma NodeSees(env: Env, k: Local, kids: seq<Kid>, v: Value, path: string, depth: nat)
    requires KidsAgree(env, kids, depth)
    ensures WalkNode(env, k, kids, v, path, depth) == [] <==> SilentNode(env, k, kids, v)
  {
    hide TextOk, NumberOk, FieldsOk, ItemsOk, TypeOk, ConstOk, EnumOk, WalkText, WalkNumber, WalkObject, WalkArray,
         WalkRole, WalkUnion, WalkIf, ContainsOk, First, Branches, KidsAgree, Check, Seen, SilentProperties,
         SilentDependents, SilentFields, SilentItems, SilentRole, SilentUnion, SilentIf;
    Unaffected(env, k, v);
    SeenKeeps(env, k, v);
    if v.Str? {
      TextAgrees(env, k, v, path);
    }
    if v.Num? {
      NumberAgrees(env, k, v, path);
    }
    if v.Obj? {
      ObjectAgrees(env, k, kids, v, path, depth);
    }
    if v.Arr? {
      ArrayAgrees(env, k, kids, v, path, depth);
    }
    RoleAgrees(env, kids, AllOf, v, path, depth);
    UnionAgrees(env, kids, AnyOf, v, path, depth, false);
    UnionAgrees(env, kids, OneOf, v, path, depth, true);
    IfAgrees(env, kids, v, path, depth);
  }

  lemma SeenKeeps(env: Env, k: Local, v: Value)
    ensures TypeOk(Seen(k), v) == TypeOk(k, v) && ConstOk(Seen(k), v) == ConstOk(k, v)
    ensures EnumOk(Seen(k), v) == EnumOk(k, v)
    ensures TextOk(env, Seen(k), v) == TextOk(env, k, v) && ItemsOk(Seen(k), v) == ItemsOk(k, v)
  {
  }

  /** A keyword says nothing about values of another kind. */
  lemma Unaffected(env: Env, k: Local, v: Value)
    ensures !v.Str? ==> TextOk(env, k, v)
    ensures !v.Num? ==> NumberOk(env, Seen(k), v)
    ensures !v.Obj? ==> FieldsOk(Seen(k), v)
    ensures !v.Arr? ==> ItemsOk(k, v)
  {
  }

  /** For every schema that nests less deep than allowed the walk is silent exactly
      where the schema is. */
  lemma {:induction false} WalkIsSilent(env: Env, s: Schema, depth: nat)
    requires Height(s) + depth <= env.maxDepth
    ensures Agrees(env, s, depth)
    decreases Height(s)
  {
    match s
    case Allow(_) =>
    case Node(k, kids) =>
      forall i | 0 <= i < |kids|
        ensures Agrees(env, kids[i].schema, depth + 1)
      {
        KidHeight(kids, i);
        WalkIsSilent(env, kids[i].schema, depth + 1);
      }
      forall v, path
        ensures Walk(env, s, v, path, depth) == [] <==> Silent(env, s, v)
      {
        hide Check, WalkNode, SilentNode, Height, KidsAgree;
        NodeSees(env, k, kids, v, path, depth + 1);
      }
  }

  /** Such a schema is silent about every value it accepts, and about a rejected one
      exactly when what rejects it is `dependencies` or a flag wherever it is looked
      for: the general error is needed for those values and no others. */
  lemma SilentExactly(env: Env, s: Schema, v: Value)
    requires Height(s) <= env.maxDepth
    ensures Walk(env, s, v, "", 0) == [] <==> Silent(env, s, v)
    ensures Check(env, s, v, 0) ==> Silent(env, s, v)
    ensures Errors(env, s, v) ==
      if Check(env, s, v, 0) then [] else if Silent(env, s, v) then [Error("", "schema")] else Walk(env, s, v, "", 0)
  {
    WalkIsSilent(env, s, 0);
  }

  // ---------------------------------------------------------------------------
  // Without `dependencies` and flags only accepted values leave it silent
  // ---------------------------------------------------------------------------

  /** On this schema silence and the check are the same. */
  ghost predicate Exact(env: Env, s: Schema) {
    && SameAt(env, s, 0, 1)
    && forall v :: Silent(env, s, v) <==> Check(env, s, v, 0)
  }

  ghost predicate KidsExact(env: Env, kids: seq<Kid>) { forall i :: 0 <= i < |kids| ==> Exact(env, kids[i].schema) }

  lemma {:induction false} FirstExact(env: Env, kids: seq<Kid>, r: Role)
    requires KidsExact(env, kids)
    ensures First(kids, r).Some? ==> Exact(env, First(kids, r).value)
  {
    hide Exact;
    if kids != [] && kids[0].role != r {
      assert forall i :: 0 <= i < |kids[1..]| ==> kids[1..][i] == kids[i + 1];
      FirstExact(env, kids[1..], r);
    }
  }

  lemma {:induction false} BranchExact(env: Env, kids: seq<Kid>, r: Role, i: nat)
    requires KidsExact(env, kids) && i < |Branches(kids, r)|
    ensures Exact(env, Branches(kids, r)[i])
    decreases |kids|
  {
    hide Exact;
    assert forall j :: 0 <= j < |kids[1..]| ==> kids[1..][j] == kids[j + 1];
    if kids[0].role != r {
      BranchExact(env, kids[1..], r, i);
    } else if i > 0 {
      BranchExact(env, kids[1..], r, i - 1);
    }
  }

  lemma {:induction false} NonePasses(env: Env, branches: seq<Schema>, v: Value, d: nat)
    requires d <= Limit(env.maxDepth) && Passing(env, branches, v, d) == 0
    ensures forall i :: 0 <= i < |branches| ==> !Check(env, branches[i], v, d)
    decreases |branches|
  {
    hide Check;
    if branches != [] {
      NonePasses(env, branches[1..], v, d);
      assert forall i :: 1 <= i < |branches| ==> branches[i] == branches[1..][i - 1];
    }
  }

  lemma UnionExact(env: Env, kids: seq<Kid>, r: Role, v: Value, exactlyOne: bool)
    requires KidsExact(env, kids)
    ensures SilentUnion(env, kids, r, v, exactlyOne) <==>
      (var n := Passing(env, Branches(kids, r), v, 1); n == 1 || (!exactlyOne && n > 0))
  {
    hide Check, Silent, Passing, Branches, TagOf, Position;
    var branches := Branches(kids, r);
    PassingSame(env, kids, r, v, 0, 1);
    if Passing(env, branches, v, 0) == 0 && Tagged(branches, v).Some? {
      NonePasses(env, branches, v, 0);
      BranchExact(env, kids, r, Tagged(branches, v).value);
    }
  }

  lemma FieldExact(env: Env, kids: seq<Kid>, f: Field)
    requires KidsExact(env, kids)
    ensures SilentField(env, kids, f) <==> FieldPasses(env, kids, f, 1)
  {
    hide Check, Silent, First, Claimed;
    FirstExact(env, kids, Additional);
    FirstExact(env, kids, PropertyNames);
    assert forall j :: 0 <= j < |kids| ==> Exact(env, kids[j].schema);
  }

  lemma FieldsExact(env: Env, kids: seq<Kid>, fields: seq<Field>)
    requires KidsExact(env, kids)
    ensures SilentFields(env, kids, fields) <==> FieldsPass(env, kids, Obj(fields), 1)
  {
    hide SilentField, FieldPasses, KidsExact;
    forall i | 0 <= i < |fields|
      ensures SilentField(env, kids, fields[i]) <==> FieldPasses(env, kids, fields[i], 1)
    {
      FieldExact(env, kids, fields[i]);
    }
  }

  lemma ItemsExact(env: Env, kids: seq<Kid>, items: seq<Value>)
    requires KidsExact(env, kids)
    ensures SilentItems(env, kids, items, 0) <==> ItemsPass(env, kids, Arr(items), 1)
  {
    hide Check, Silent, First;
    forall i | 0 <= i < |items| && ItemSchema(kids, i).Some?
      ensures Exact(env, ItemSchema(kids, i).value)
    {
      FirstExact(env, kids, Prefix(i));
      FirstExact(env, kids, Rest);
    }
  }

  lemma ContainsExact(env: Env, k: Local, kids: seq<Kid>, v: Value)
    requires KidsExact(env, kids)
    ensures ContainsOk(env, k, kids, v, 0) == ContainsOk(env, k, kids, v, 1)
  {
    hide Check, First, CountPassing;
    FirstExact(env, kids, Contains);
    if v.Arr? && First(kids, Contains).Some? {
      CountSame(env, First(kids, Contains).value, v.items, 0, 1);
    }
  }

  lemma IfExact(env: Env, kids: seq<Kid>, v: Value)
    requires KidsExact(env, kids)
    ensures SilentIf(env, kids, v) <==> IfOk(env, kids, v, 1)
  {
    hide Check, Silent, First;
    FirstExact(env, kids, If);
    FirstExact(env, kids, Then);
    FirstExact(env, kids, Else);
  }

  lemma KidsOkExact(env: Env, kids: seq<Kid>, v: Value)
    requires KidsExact(env, kids)
    requires forall i :: 0 <= i < |kids| ==> !kids[i].role.Dependency?
    ensures KidsOk(env, kids, v, 1) <==>
      && (v.Obj? ==> SilentProperties(env, kids, v.fields) && SilentDependents(env, kids, v))
      && SilentRole(env, kids, AllOf, v)
  {
    hide Check, Silent;
    assert forall i :: 0 <= i < |kids| ==> Exact(env, kids[i].schema);
  }

  lemma NodeExact(env: Env, k: Local, kids: seq<Kid>, v: Value)
    requires KidsExact(env, kids) && PlainLocal(k)
    requires forall i :: 0 <= i < |kids| ==> !kids[i].role.Dependency?
    ensures SilentNode(env, k, kids, v) <==> Check(env, Node(k, kids), v, 0)
  {
    hide LocalOk, KidsOk, FieldsPass, ItemsPass, ContainsOk, IfOk, Passing, First, Branches, KidsExact,
         SilentProperties, SilentDependents, SilentFields, SilentItems, SilentRole, SilentUnion, SilentIf;
    assert Seen(k) == k;
    KidsOkExact(env, kids, v);
    if v.Obj? {
      FieldsExact(env, kids, v.fields);
      assert Obj(v.fields) == v;
    }
    if v.Arr? {
      ItemsExact(env, kids, v.items);
      assert Arr(v.items) == v;
    }
    OtherKinds(env, k, kids, v);
    ContainsExact(env, k, kids, v);
    UnionExact(env, kids, AnyOf, v, false);
    UnionExact(env, kids, OneOf, v, true);
    FirstExact(env, kids, Not);
    IfExact(env, kids, v);
  }

  lemma OtherKinds(env: Env, k: Local, kids: seq<Kid>, v: Value)
    ensures !v.Obj? ==> FieldsPass(env, kids, v, 1)
    ensures !v.Arr? ==> ItemsPass(env, kids, v, 1) && ContainsOk(env, k, kids, v, 1)
  {
  }

  lemma {:induction false} PlainIsExact(env: Env, s: Schema)
    requires Plain(s) && Height(s) + 1 <= Limit(env.maxDepth)
    ensures Exact(env, s)
    decreases Height(s)
  {
    DepthDoesNotMatter(env, s, 0, 1);
    match s
    case Allow(_) =>
    case Node(k, kids) =>
      forall i | 0 <= i < |kids|
        ensures Exact(env, kids[i].schema) && !kids[i].role.Dependency?
      {
        KidHeight(kids, i);
        PlainAt(kids, i);
        PlainIsExact(env, kids[i].schema);
      }
      forall v
        ensures Silent(env, s, v) <==> Check(env, s, v, 0)
      {
        hide Check, SilentNode, Height, KidsExact;
        NodeExact(env, k, kids, v);
      }
  }

  /** On every schema without `dependencies` and without flags for exclusive bounds
      that nests less deep than allowed, the walk reports an error of its own for
      every value that is rejected and none for one that is accepted: the general
      error is never needed. */
  lemma FastAndSlowAgree(env: Env, s: Schema, v: Value)
    requires Plain(s) && Height(s) <= env.maxDepth
    ensures Walk(env, s, v, "", 0) == [] <==> Check(env, s, v, 0)
    ensures Errors(env, s, v) == Walk(env, s, v, "", 0)
  {
    hide Walk, Check, Silent, Errors;
    PlainIsExact(env, s);
    SilentExactly(env, s, v);
  }

  /** A schema with `dependencies` whose violation only the general error reports. */
  lemma DependenciesAreNotExplained(env: Env, a: string, b: string)
    requires env.maxDepth > 0 && a != b
    ensures var s := Node(NO_KEYWORDS.(dependencies := [Dependence(a, [b])]), []);
      var v := Obj([Field(a, Null)]);
      !Check(env, s, v, 0) && Walk(env, s, v, "", 0) == [] && Errors(env, s, v) == [Error("", "schema")]
  {
    var k := NO_KEYWORDS.(dependencies := [Dependence(a, [b])]);
    var v := Obj([Field(a, Null)]);
    assert v.fields[1..] == [] && v.fields[0].key == a;
    assert Get(v.fields, a) == Some(Null) && Get(v.fields, b) == Get(v.fields[1..], b);
    assert Has(v.fields, a) && !Has(v.fields, b);
    assert !NeedsMet(k.dependencies, v.fields) by {
      assert k.dependencies[0].needs[0] == b;
    }
    EmptyNodeIsSilent(env, k, v);
    SilentExactly(env, Node(k, []), v);
  }

  /** A flag for an exclusive bound whose violation only the general error reports. */
  lemma FlagIsNotExplained(env: Env, n: real)
    requires env.maxDepth > 0
    ensures var s := Node(NO_KEYWORDS.(minimum := Some(n), exclusiveMinimum := Flag), []);
      !Check(env, s, Num(n), 0) && Walk(env, s, Num(n), "", 0) == [] && Errors(env, s, Num(n)) == [Error("", "schema")]
  {
    var k := NO_KEYWORDS.(minimum := Some(n), exclusiveMinimum := Flag);
    EmptyNodeIsSilent(env, k, Num(n));
    SilentExactly(env, Node(k, []), Num(n));
  }

  lemma EmptyNodeIsSilent(env: Env, k: Local, v: Value)
    requires LocalOk(env, Seen(k), v) && !k.anyOf && !k.oneOf
    ensures Silent(env, Node(k, []), v)
  {
  }

  // ---------------------------------------------------------------------------
  // Pointers
  // ---------------------------------------------------------------------------

  /** Replaces the pairs `~c` from left to right. */
  function ReplaceTilde(s: string, c: char, put: char): string {
    if |s| < 2 then s
    else if s[0] == '~' && s[1] == c then [put] + ReplaceTilde(s[2..], c, put)
    else [s[0]] + ReplaceTilde(s[1..], c, put)
  }

  function Unescape(s: string): string { ReplaceTilde(ReplaceTilde(s, '1', '/'), '0', '~') }

  /** The escaped key after the first of the two replacements. */
  function HalfEscaped(key: string): string {
    if key == "" then "" else (if key[0] == '~' then "~0" else [key[0]]) + HalfEscaped(key[1..])
  }

  lemma ReplaceHead(s: string, c: char, put: char)
    ensures s != "" && s[0] != '~' ==> ReplaceTilde(s, c, put) == [s[0]] + ReplaceTilde(s[1..], c, put)
    ensures |s| >= 2 && s[0] == '~' && s[1] == c ==> ReplaceTilde(s, c, put) == [put] + ReplaceTilde(s[2..], c, put)
    ensures |s| >= 2 && s[0] == '~' && s[1] != c ==> ReplaceTilde(s, c, put) == ['~'] + ReplaceTilde(s[1..], c, put)
  {
    if |s| == 1 {
      assert s == [s[0]] + [] && s[1..] == [];
    }
  }

  lemma {:induction false} SlashesComeBack(key: string)
    ensures ReplaceTilde(Escape(key), '1', '/') == HalfEscaped(key)
  {
    hide ReplaceTilde;
    if key == "" {
      assert ReplaceTilde("", '1', '/') == "" by { ReplaceNothing('1', '/'); }
    } else {
      SlashesComeBack(key[1..]);
      var rest, s := Escape(key[1..]), Escape(key);
      ReplaceHead(s, '1', '/');
      if key[0] == '~' {
        assert s[1..] == "0" + rest && s[1..][1..] == rest;
        ReplaceHead(s[1..], '1', '/');
        assert ['~'] + (['0'] + HalfEscaped(key[1..])) == "~0" + HalfEscaped(key[1..]);
      } else if key[0] == '/' {
        assert s[2..] == rest;
      } else {
        assert s[1..] == rest;
      }
    }
  }

  lemma ReplaceNothing(c: char, put: char)
    ensures ReplaceTilde("", c, put) == ""
  {
  }

  lemma {:induction false} TildesComeBack(key: string)
    ensures ReplaceTilde(HalfEscaped(key), '0', '~') == key
  {
    hide ReplaceTilde;
    if key == "" {
      ReplaceNothing('0', '~');
    } else {
      TildesComeBack(key[1..]);
      var rest, s := HalfEscaped(key[1..]), HalfEscaped(key);
      ReplaceHead(s, '0', '~');
      if key[0] == '~' {
        assert s[2..] == rest;
      } else {
        assert s[1..] == rest;
      }
      assert [key[0]] + key[1..] == key;
    }
  }

  /** A key written into a pointer reads back as itself. */
  lemma PointerRoundTrip(key: string)
    ensures Unescape(Escape(key)) == key
  {
    SlashesComeBack(key);
    TildesComeBack(key);
  }
}
