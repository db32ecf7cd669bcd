/** When lenient conversion leaves a valid value alone. The passes keep it exactly
    unless, on the way that the conversion takes, a value that is no array meets a
    schema that expects one without saying so. */
module SchemaKept {
  import opened Depths
  import opened Options
  import opened SchemaModel
  import opened SchemaCheck
  import opened SchemaCoerce

  // ---------------------------------------------------------------------------
  // What conversion does to valid values
  // ---------------------------------------------------------------------------

  predicate Fits64(n: real) { I64_MIN <= n <= I64_MAX }

  /** A number that the cast to 64 bits changes. */
  predicate Big(v: Value) { v.Num? && !Fits64(v.n) }

  /** On the way of the conversion through schema and value, a value meets a node
      that changes it: a number beyond 64 bits meets the type integer, or a value
      that is no array meets a node that expects one by its items alone. Constants,
      enumerations and the branches of unions are not walked, and a node is read as
      a union, as `allOf`, by its one type, by its properties, or by its items,
      whichever comes first. Read by its items, a node walks an array item by item,
      and wraps anything else unless items have schemas of their own. */
  predicate Meets(env: Env, s: Schema, v: Value, depth: nat)
    decreases Room(env.maxDepth, depth), 0
  {
    depth < env.maxDepth && s.Node? && NodeMeets(env, s.local, s.kids, v, depth + 1)
  }

  predicate NodeMeets(env: Env, k: Local, kids: seq<Kid>, v: Value, depth: nat)
    decreases Room(env.maxDepth, depth), 5
  {
    if k.constant.Some? || k.enumeration.Some? then false
    else if k.anyOf || k.oneOf then HasMembers(k, kids) && FieldsMeet(env, kids, v, depth)
    else if HasAllOf(k, kids) then
      RoleMeets(env, kids, AllOf, v, depth) || (HasMembers(k, kids) && FieldsMeet(env, kids, v, depth))
    else if k.types != [] && !k.typeIsList then TypeMeets(env, k, kids, k.types[0], v, depth)
    else if HasProperties(k, kids) then FieldsMeet(env, kids, v, depth)
    else if !HasItems(k, kids) then false
    else if v.Arr? then ItemsMeet(env, k, kids, v, depth)
    else !HasPrefix(k, kids)
  }

  predicate TypeMeets(env: Env, k: Local, kids: seq<Kid>, target: string, v: Value, depth: nat)
    decreases Room(env.maxDepth, depth), 4
  {
    match target
    case "integer" => Big(v)
    case "array" => ItemsMeet(env, k, kids, v, depth)
    case "object" => FieldsMeet(env, kids, v, depth)
    case _ => false
  }

  predicate ItemsMeet(env: Env, k: Local, kids: seq<Kid>, v: Value, depth: nat)
    decreases Room(env.maxDepth, depth), 3
  {
    v.Arr? && exists i :: 0 <= i < |v.items| && ItemMeets(env, k, kids, i, v.items[i], depth)
  }

  predicate ItemMeets(env: Env, k: Local, kids: seq<Kid>, i: nat, item: Value, depth: nat)
    decreases Room(env.maxDepth, depth), 2
  {
    ItemSchemaAt(k, kids, i).Some? && Meets(env, ItemSchemaAt(k, kids, i).value, item, depth)
  }

  predicate FieldsMeet(env: Env, kids: seq<Kid>, v: Value, depth: nat)
    decreases Room(env.maxDepth, depth), 3
  {
    v.Obj? && exists i :: 0 <= i < |v.fields| && FieldMeets(env, kids, v.fields[i], depth)
  }

  predicate FieldMeets(env: Env, kids: seq<Kid>, f: Field, depth: nat)
    decreases Room(env.maxDepth, depth), 2
  {
    || (First(kids, Property(f.key)).Some? && Meets(env, First(kids, Property(f.key)).value, f.value, depth))
    || PatternsMeet(env, kids, f.key, f.value, depth)
    || (!Claimed(env, kids, f.key) && First(kids, Additional).Some?
        && Meets(env, First(kids, Additional).value, f.value, depth))
  }

  predicate Matches(env: Env, kid: Kid, key: string) {
    kid.role.PatternProperty? && env.matches(kid.role.pattern, key) == Matched
  }

  predicate PatternsMeet(env: Env, kids: seq<Kid>, key: string, v: Value, depth: nat)
    decreases Room(env.maxDepth, depth), 1
  {
    exists i :: 0 <= i < |kids| && Matches(env, kids[i], key) && Meets(env, kids[i].schema, v, depth)
  }

  predicate RoleMeets(env: Env, kids: seq<Kid>, r: Role, v: Value, depth: nat)
    decreases Room(env.maxDepth, depth), 1, |kids|
  {
    kids != []
    && ((kids[0].role == r && Meets(env, kids[0].schema, v, depth))
        || RoleMeets(env, kids[1..], r, v, depth))
  }

  // ---------------------------------------------------------------------------
  // What was changed stays changed
  // ---------------------------------------------------------------------------

  /** Read as a number, the text is none beyond 64 bits. */
  predicate Tame(t: Texts, s: string) {
    && (t.strict(s).Some? ==> Fits64(t.strict(s).value))
    && (t.loose(s).Some? ==> Fits64(t.loose(s).value))
  }

  /** Numbers of 64 bits are written so that they read back as such, and the words
      that conversion writes are no numbers beyond them. */
  ghost predicate Sane(t: Texts) {
    && (forall n :: Fits64(n) ==> Tame(t, t.show(n)))
    && Tame(t, "true") && Tame(t, "false") && Tame(t, "null") && Tame(t, "")
  }

  /** Nothing that could be read as a number beyond 64 bits. */
  predicate Small(t: Texts, w: Value) { !Big(w) && (w.Str? ==> Tame(t, w.s)) }

  /** Somewhere in `w` an array stands in place of what was none in `v`, or something
      small in place of a number beyond 64 bits. */
  ghost predicate Grown(t: Texts, v: Value, w: Value)
    decreases v
  {
    || (Big(v) && Small(t, w))
    || (!v.Arr? && w.Arr?)
    || (v.Arr? && w.Arr? && |v.items| == |w.items|
        && exists i :: 0 <= i < |v.items| && Grown(t, v.items[i], w.items[i]))
    || (v.Obj? && w.Obj? && |v.fields| == |w.fields|
        && exists i :: 0 <= i < |v.fields| && Grown(t, v.fields[i].value, w.fields[i].value))
  }

  lemma {:induction false} GrownDiffers(t: Texts, v: Value, w: Value)
    requires Grown(t, v, w)
    ensures v != w
    decreases v
  {
    if v.Arr? {
      var i :| 0 <= i < |v.items| && Grown(t, v.items[i], w.items[i]);
      GrownDiffers(t, v.items[i], w.items[i]);
    } else if v.Obj? && w.Obj? {
      var i :| 0 <= i < |v.fields| && Grown(t, v.fields[i].value, w.fields[i].value);
      GrownDiffers(t, v.fields[i].value, w.fields[i].value);
    }
  }

  lemma GrownIsContainer(t: Texts, v: Value, w: Value)
    requires !Big(v) && Grown(t, v, w)
    ensures w.Arr? || (w.Obj? && v.Obj?)
  {
  }

  /** No pass at this depth makes a grown value whole again. */
  ghost predicate Stays(env: Env, t: Texts, depth: nat) {
    forall pass, s, v, w :: pass != DropNulls && Grown(t, v, w) ==> Grown(t, v, Run(pass, env, t, s, w, depth))
  }

  lemma {:induction false} ItemsAfter(
    pass: Pass, env: Env, t: Texts, k: Local, kids: seq<Kid>, items: seq<Value>, i: nat, depth: nat)
    ensures var after := RunItems(pass, env, t, k, kids, items, i, depth);
      && |after| == |items|
      && forall j :: 0 <= j < |items| ==>
           var s := ItemSchemaAt(k, kids, i + j);
           after[j] == if s.Some? then Run(pass, env, t, s.value, items[j], depth) else items[j]
    decreases |items|
  {
    hide Run, ItemSchemaAt;
    if items != [] {
      ItemsAfter(pass, env, t, k, kids, items[1..], i + 1, depth);
      var after := RunItems(pass, env, t, k, kids, items, i, depth);
      forall j | 0 <= j < |items|
        ensures var s := ItemSchemaAt(k, kids, i + j);
          after[j] == if s.Some? then Run(pass, env, t, s.value, items[j], depth) else items[j]
      {
        if j > 0 {
          assert after[j] == after[1..][j - 1] && items[j] == items[1..][j - 1];
          assert i + j == i + 1 + (j - 1);
        }
      }
    }
  }

  /** Where every field is kept, each changes by itself. */
  lemma {:induction false} FieldsAfter(
    pass: Pass, env: Env, t: Texts, k: Local, kids: seq<Kid>, fields: seq<Field>, depth: nat)
    requires forall j :: 0 <= j < |fields| ==> |RunField(pass, env, t, k, kids, fields[j], depth)| == 1
    ensures var after := RunFields(pass, env, t, k, kids, fields, depth);
      && |after| == |fields|
      && forall j :: 0 <= j < |fields| ==> [after[j]] == RunField(pass, env, t, k, kids, fields[j], depth)
    decreases |fields|
  {
    hide RunField;
    if fields != [] {
      assert forall j :: 0 <= j < |fields[1..]| ==> fields[1..][j] == fields[j + 1];
      FieldsAfter(pass, env, t, k, kids, fields[1..], depth);
      var after := RunFields(pass, env, t, k, kids, fields, depth);
      assert after[0..1] == RunField(pass, env, t, k, kids, fields[0], depth);
      forall j | 0 <= j < |fields|
        ensures [after[j]] == RunField(pass, env, t, k, kids, fields[j], depth)
      {
        if j > 0 {
          assert after[j] == after[1..][j - 1] && fields[j] == fields[1..][j - 1];
        }
      }
    }
  }

  lemma OneField(pass: Pass, env: Env, t: Texts, k: Local, kids: seq<Kid>, f: Field, depth: nat)
    requires pass != DropNulls
    ensures |RunField(pass, env, t, k, kids, f, depth)| == 1
  {
    hide Run, RunPatterns, First, Claimed;
  }

  lemma {:induction false} PatternsStay(
    pass: Pass, env: Env, t: Texts, kids: seq<Kid>, key: string, v: Value, w: Value, depth: nat)
    requires pass != DropNulls && Stays(env, t, depth) && Grown(t, v, w)
    ensures Grown(t, v, RunPatterns(pass, env, t, kids, key, w, depth))
    decreases |kids|
  {
    hide Run, Grown;
    if kids != [] {
      var next := if kids[0].role.PatternProperty? && env.matches(kids[0].role.pattern, key) == Matched
        then Run(pass, env, t, kids[0].schema, w, depth) else w;
      PatternsStay(pass, env, t, kids[1..], key, v, next, depth);
    }
  }

  lemma {:induction false} RoleStays(
    pass: Pass, env: Env, t: Texts, kids: seq<Kid>, r: Role, v: Value, w: Value, depth: nat)
    requires pass != DropNulls && Stays(env, t, depth) && Grown(t, v, w)
    ensures Grown(t, v, RunRole(pass, env, t, kids, r, w, depth))
    decreases |kids|
  {
    hide Run, Grown;
    if kids != [] {
      var next := if kids[0].role == r then Run(pass, env, t, kids[0].schema, w, depth) else w;
      RoleStays(pass, env, t, kids[1..], r, v, next, depth);
    }
  }

  lemma FieldStays(
    pass: Pass, env: Env, t: Texts, k: Local, kids: seq<Kid>, f: Field, v: Value, depth: nat)
    requires pass != DropNulls && Stays(env, t, depth) && Grown(t, v, f.value)
    ensures var after := RunField(pass, env, t, k, kids, f, depth);
      |after| == 1 && Grown(t, v, after[0].value)
  {
    hide Run, Grown, RunPatterns, First, Claimed, Stays;
    var property, additional := First(kids, Property(f.key)), First(kids, Additional);
    var v1 := if property.Some? then Run(pass, env, t, property.value, f.value, depth) else f.value;
    if property.Some? {
      StaysOnce(pass, env, t, property.value, v, f.value, depth);
    }
    PatternsStay(pass, env, t, kids, f.key, v, v1, depth);
    var v2 := RunPatterns(pass, env, t, kids, f.key, v1, depth);
    if additional.Some? {
      StaysOnce(pass, env, t, additional.value, v, v2, depth);
    }
  }

  lemma StaysOnce(pass: Pass, env: Env, t: Texts, s: Schema, v: Value, w: Value, depth: nat)
    requires Stays(env, t, depth) && pass != DropNulls && Grown(t, v, w)
    ensures Grown(t, v, Run(pass, env, t, s, w, depth))
  {
  }

  lemma ItemsStay(
    pass: Pass, env: Env, t: Texts, k: Local, kids: seq<Kid>, v: Value, w: Value, depth: nat)
    requires !Big(v)
    requires pass != DropNulls && Stays(env, t, depth) && Grown(t, v, w) && w.Arr?
    ensures Grown(t, v, Arr(RunItems(pass, env, t, k, kids, w.items, 0, depth)))
  {
    hide Run, Stays;
    ItemsAfter(pass, env, t, k, kids, w.items, 0, depth);
    var after := RunItems(pass, env, t, k, kids, w.items, 0, depth);
    if v.Arr? {
      var i :| 0 <= i < |v.items| && Grown(t, v.items[i], w.items[i]);
      var s := ItemSchemaAt(k, kids, 0 + i);
      if s.Some? {
        StaysOnce(pass, env, t, s.value, v.items[i], w.items[i], depth);
      }
      assert Grown(t, v.items[i], after[i]);
    }
  }

  lemma FieldsStay(
    pass: Pass, env: Env, t: Texts, k: Local, kids: seq<Kid>, v: Value, w: Value, depth: nat)
    requires !Big(v)
    requires pass != DropNulls && Stays(env, t, depth) && Grown(t, v, w) && w.Obj?
    ensures Grown(t, v, Obj(RunFields(pass, env, t, k, kids, w.fields, depth)))
  {
    hide Run, Stays, RunField;
    forall j | 0 <= j < |w.fields|
      ensures |RunField(pass, env, t, k, kids, w.fields[j], depth)| == 1
    {
      OneField(pass, env, t, k, kids, w.fields[j], depth);
    }
    FieldsAfter(pass, env, t, k, kids, w.fields, depth);
    var after := RunFields(pass, env, t, k, kids, w.fields, depth);
    var i :| 0 <= i < |v.fields| && Grown(t, v.fields[i].value, w.fields[i].value);
    FieldStays(pass, env, t, k, kids, w.fields[i], v.fields[i].value, depth);
    assert Grown(t, v.fields[i].value, after[i].value);
  }

  lemma ObjectStays(env: Env, t: Texts, k: Local, kids: seq<Kid>, v: Value, w: Value, depth: nat)
    requires !Big(v)
    requires Stays(env, t, depth) && Grown(t, v, w)
    ensures Grown(t, v, ConvertObject(env, t, k, kids, w, depth))
  {
    hide Run, Stays, RunFields;
    if w.Obj? {
      FieldsStay(Convert, env, t, k, kids, v, w, depth);
    }
  }

  lemma ArrayStays(env: Env, t: Texts, k: Local, kids: seq<Kid>, v: Value, w: Value, depth: nat)
    requires !Big(v)
    requires Stays(env, t, depth) && Grown(t, v, w)
    ensures Grown(t, v, ConvertArray(env, t, k, kids, w, depth))
  {
    hide Run, Stays, RunItems, HasPrefix;
    if w.Arr? {
      ItemsStay(Convert, env, t, k, kids, v, w, depth);
    } else {
      GrownIsContainer(t, v, w);
    }
  }

  lemma MembersStay(env: Env, t: Texts, s: Schema, v: Value, w: Value, depth: nat)
    requires !Big(v)
    requires s.Node? && Stays(env, t, depth) && Grown(t, v, w)
    ensures Grown(t, v, ConvertMembers(env, t, s, w, depth))
  {
    hide Stays, ConvertObject, Grown;
    ObjectStays(env, t, s.local, s.kids, v, w, depth);
  }

  lemma {:induction false} BranchStays(
    env: Env, t: Texts, s: Schema, branches: seq<Schema>, v: Value, w: Value, depth: nat)
    requires !Big(v)
    requires s.Node? && Stays(env, t, depth) && Grown(t, v, w)
    ensures Grown(t, v, ConvertToBranch(env, t, s, branches, w, depth))
    decreases |branches|
  {
    hide Stays, ConvertMembers, Grown, Run, Check;
    if branches == [] {
      MembersStay(env, t, s, v, w, depth);
    } else {
      StaysOnce(Convert, env, t, branches[0], v, w, depth);
      MembersStay(env, t, s, v, Run(Convert, env, t, branches[0], w, depth), depth);
      BranchStays(env, t, s, branches[1..], v, w, depth);
    }
  }

  /** Neither literals nor simple types do anything to an array or an object. */
  lemma LiteralsPass(t: Texts, literal: Value, w: Value)
    requires w.Arr? || w.Obj?
    ensures ConvertLiteral(t, literal, w) == w
  {
    hide Equal;
  }

  lemma {:induction false} MembersPass(env: Env, t: Texts, s: Schema, members: seq<Value>, w: Value)
    requires w.Arr? || w.Obj?
    ensures PickMember(env, t, s, members, w) == w
    decreases |members|
  {
    hide Equal, Check, ConvertLiteral;
    if members != [] {
      LiteralsPass(t, members[0], w);
      MembersPass(env, t, s, members[1..], w);
    }
  }

  lemma TypeStays(env: Env, t: Texts, k: Local, kids: seq<Kid>, target: string, v: Value, w: Value, depth: nat)
    requires !Big(v)
    requires Stays(env, t, depth) && Grown(t, v, w)
    ensures Grown(t, v, ConvertByType(env, t, k, kids, target, w, depth))
  {
    hide Stays, ConvertArray, ConvertObject, Grown, ToI64;
    GrownIsContainer(t, v, w);
    ArrayStays(env, t, k, kids, v, w, depth);
    ObjectStays(env, t, k, kids, v, w, depth);
  }

  lemma ConvertStays(env: Env, t: Texts, s: Schema, v: Value, w: Value, depth: nat)
    requires !Big(v)
    requires s.Node? && Stays(env, t, depth) && Grown(t, v, w)
    ensures Grown(t, v, ConvertNode(env, t, s, w, depth))
  {
    hide Stays, Grown, Run, RunRole, ConvertMembers, ConvertToBranch, ConvertByType, ConvertObject, ConvertArray,
         ConvertLiteral, PickMember, Passing, Branches, Equal, HasProperties, HasItems, HasAllOf;
    var k, kids := s.local, s.kids;
    GrownIsContainer(t, v, w);
    if k.constant.Some? {
      LiteralsPass(t, k.constant.value, w);
    }
    if k.enumeration.Some? {
      MembersPass(env, t, s, k.enumeration.value, w);
    }
    MembersStay(env, t, s, v, w, depth);
    BranchStays(env, t, s, Branches(kids, AnyOf), v, w, depth);
    BranchStays(env, t, s, Branches(kids, OneOf), v, w, depth);
    RoleStays(Convert, env, t, kids, AllOf, v, w, depth);
    MembersStay(env, t, s, v, RunRole(Convert, env, t, kids, AllOf, w, depth), depth);
    if k.types != [] {
      TypeStays(env, t, k, kids, k.types[0], v, w, depth);
    }
    ObjectStays(env, t, k, kids, v, w, depth);
    ArrayStays(env, t, k, kids, v, w, depth);
  }

  lemma {:induction false} CoercePasses(t: Texts, types: seq<string>, w: Value)
    requires w.Arr? || w.Obj?
    ensures CoerceTo(t, types, w) == w
    decreases |types|
  {
    hide Equal, ToI64;
    if types != [] {
      assert CoercePrimitive(t, w, types[0]) == w;
      CoercePasses(t, types[1..], w);
    }
  }

  lemma {:induction false} CoerceBranchStays(
    env: Env, t: Texts, branches: seq<Schema>, v: Value, w: Value, depth: nat)
    requires !Big(v)
    requires Stays(env, t, depth) && Grown(t, v, w)
    ensures Grown(t, v, CoerceToBranch(env, t, branches, w, depth))
    decreases |branches|
  {
    hide Stays, Grown, Run, Check;
    if branches != [] {
      StaysOnce(Coerce, env, t, branches[0], v, w, depth);
      CoerceBranchStays(env, t, branches[1..], v, w, depth);
    }
  }

  lemma CoerceStays(env: Env, t: Texts, k: Local, kids: seq<Kid>, v: Value, w: Value, depth: nat)
    requires !Big(v)
    requires Stays(env, t, depth) && Grown(t, v, w)
    ensures Grown(t, v, CoerceNode(env, t, k, kids, w, depth))
  {
    hide Stays, Grown, Run, RunRole, RunFields, RunItems, CoerceToBranch, CoerceTo, Passing, Branches, TypeOk;
    RoleStays(Coerce, env, t, kids, AllOf, v, w, depth);
    var v1 := RunRole(Coerce, env, t, kids, AllOf, w, depth);
    CoerceBranchStays(env, t, Branches(kids, AnyOf), v, v1, depth);
    var v2 := if k.anyOf then CoerceUnion(env, t, Branches(kids, AnyOf), v1, depth) else v1;
    CoerceBranchStays(env, t, Branches(kids, OneOf), v, v2, depth);
    var v3 := if k.oneOf then CoerceUnion(env, t, Branches(kids, OneOf), v2, depth) else v2;
    GrownIsContainer(t, v, v3);
    CoercePasses(t, k.types, v3);
    if v3.Obj? {
      FieldsStay(Coerce, env, t, k, kids, v, v3, depth);
    } else {
      ItemsStay(Coerce, env, t, k, kids, v, v3, depth);
    }
  }

  // --- small values stay small

  ghost predicate SmallAt(env: Env, t: Texts, depth: nat) {
    forall pass, s, w :: pass != DropNulls && Small(t, w) ==> Small(t, Run(pass, env, t, s, w, depth))
  }

  lemma SmallOnce(pass: Pass, env: Env, t: Texts, s: Schema, w: Value, depth: nat)
    requires SmallAt(env, t, depth) && pass != DropNulls && Small(t, w)
    ensures Small(t, Run(pass, env, t, s, w, depth))
  {
  }

  lemma CastFits(n: real)
    ensures Fits64(ToI64(n))
  {
  }

  lemma SmallNumber(t: Texts, w: Value)
    requires Small(t, w)
    ensures TryNumber(t, w).Some? ==> Fits64(TryNumber(t, w).value)
  {
  }

  lemma SmallText(t: Texts, w: Value)
    requires Sane(t) && Small(t, w)
    ensures TryString(t, w).Some? ==> Small(t, TryString(t, w).value)
  {
  }

  lemma SmallLiteral(t: Texts, literal: Value, w: Value)
    requires Sane(t) && Small(t, w)
    ensures Small(t, ConvertLiteral(t, literal, w))
  {
    SmallNumber(t, w);
    SmallText(t, w);
    hide Sane, Tame;
  }

  lemma {:induction false} SmallMember(env: Env, t: Texts, s: Schema, members: seq<Value>, w: Value)
    requires Sane(t) && Small(t, w)
    ensures Small(t, PickMember(env, t, s, members, w))
    decreases |members|
  {
    hide Equal, Check, ConvertLiteral, Small, Sane;
    if members != [] {
      SmallLiteral(t, members[0], w);
      SmallMember(env, t, s, members[1..], w);
    }
  }

  lemma SmallType(env: Env, t: Texts, k: Local, kids: seq<Kid>, target: string, w: Value, depth: nat)
    requires Sane(t) && Small(t, w)
    ensures Small(t, ConvertByType(env, t, k, kids, target, w, depth))
  {
    hide Sane, Tame, Run, RunItems, RunFields, ToI64;
    SmallNumber(t, w);
    SmallText(t, w);
    if TryNumber(t, w).Some? {
      CastFits(TryNumber(t, w).value);
    }
  }

  lemma SmallContainer(env: Env, t: Texts, s: Schema, w: Value, depth: nat)
    requires s.Node? && Small(t, w)
    ensures Small(t, ConvertMembers(env, t, s, w, depth))
    ensures Small(t, ConvertObject(env, t, s.local, s.kids, w, depth))
    ensures Small(t, ConvertArray(env, t, s.local, s.kids, w, depth))
  {
    hide Tame, Run, RunItems, RunFields;
  }

  lemma {:induction false} SmallBranch(
    env: Env, t: Texts, s: Schema, branches: seq<Schema>, w: Value, depth: nat)
    requires s.Node? && SmallAt(env, t, depth) && Small(t, w)
    ensures Small(t, ConvertToBranch(env, t, s, branches, w, depth))
    decreases |branches|
  {
    hide SmallAt, Small, Run, Check, ConvertMembers;
    SmallContainer(env, t, s, w, depth);
    if branches != [] {
      SmallOnce(Convert, env, t, branches[0], w, depth);
      SmallContainer(env, t, s, Run(Convert, env, t, branches[0], w, depth), depth);
      SmallBranch(env, t, s, branches[1..], w, depth);
    }
  }

  lemma {:induction false} SmallRole(pass: Pass, env: Env, t: Texts, kids: seq<Kid>, r: Role, w: Value, depth: nat)
    requires pass != DropNulls && SmallAt(env, t, depth) && Small(t, w)
    ensures Small(t, RunRole(pass, env, t, kids, r, w, depth))
    decreases |kids|
  {
    hide SmallAt, Small, Run;
    if kids != [] {
      if kids[0].role == r {
        SmallOnce(pass, env, t, kids[0].schema, w, depth);
      }
      SmallRole(
        pass, env, t, kids[1..], r,
        if kids[0].role == r then Run(pass, env, t, kids[0].schema, w, depth) else w, depth);
    }
  }

  lemma SmallConvert(env: Env, t: Texts, s: Schema, w: Value, depth: nat)
    requires s.Node? && Sane(t) && SmallAt(env, t, depth) && Small(t, w)
    ensures Small(t, ConvertNode(env, t, s, w, depth))
  {
    hide SmallAt, Small, Sane, Run, RunRole, ConvertMembers, ConvertToBranch, ConvertByType, ConvertObject,
         ConvertArray, ConvertLiteral, PickMember, Passing, Branches, Equal, HasProperties, HasItems, HasAllOf;
    var k, kids := s.local, s.kids;
    if k.constant.Some? {
      SmallLiteral(t, k.constant.value, w);
    }
    if k.enumeration.Some? {
      SmallMember(env, t, s, k.enumeration.value, w);
    }
    SmallContainer(env, t, s, w, depth);
    SmallBranch(env, t, s, Branches(kids, AnyOf), w, depth);
    SmallBranch(env, t, s, Branches(kids, OneOf), w, depth);
    SmallRole(Convert, env, t, kids, AllOf, w, depth);
    SmallContainer(env, t, s, RunRole(Convert, env, t, kids, AllOf, w, depth), depth);
    if k.types != [] {
      SmallType(env, t, k, kids, k.types[0], w, depth);
    }
  }

  lemma SmallPrimitive(t: Texts, w: Value, target: string)
    requires Sane(t) && Small(t, w)
    ensures Small(t, CoercePrimitive(t, w, target))
  {
    hide ToI64;
    if w.Str? && t.strict(w.s).Some? {
      CastFits(t.strict(w.s).value);
    }
  }

  lemma {:induction false} SmallTypes(t: Texts, types: seq<string>, w: Value)
    requires Sane(t) && Small(t, w)
    ensures Small(t, CoerceTo(t, types, w))
    decreases |types|
  {
    hide Sane, Small, CoercePrimitive, Equal;
    if types != [] {
      SmallPrimitive(t, w, types[0]);
      SmallTypes(t, types[1..], w);
    }
  }

  lemma {:induction false} SmallCoerceBranch(env: Env, t: Texts, branches: seq<Schema>, w: Value, depth: nat)
    requires SmallAt(env, t, depth) && Small(t, w)
    ensures Small(t, CoerceToBranch(env, t, branches, w, depth))
    decreases |branches|
  {
    hide SmallAt, Small, Run, Check;
    if branches != [] {
      SmallOnce(Coerce, env, t, branches[0], w, depth);
      SmallCoerceBranch(env, t, branches[1..], w, depth);
    }
  }

  lemma SmallCoerce(env: Env, t: Texts, k: Local, kids: seq<Kid>, w: Value, depth: nat)
    requires Sane(t) && SmallAt(env, t, depth) && Small(t, w)
    ensures Small(t, CoerceNode(env, t, k, kids, w, depth))
  {
    hide SmallAt, Sane, Tame, Run, RunRole, RunFields, RunItems, CoerceToBranch, CoerceTo, Passing, Branches, TypeOk;
    SmallRole(Coerce, env, t, kids, AllOf, w, depth);
    var v1 := RunRole(Coerce, env, t, kids, AllOf, w, depth);
    SmallCoerceBranch(env, t, Branches(kids, AnyOf), v1, depth);
    var v2 := if k.anyOf then CoerceUnion(env, t, Branches(kids, AnyOf), v1, depth) else v1;
    SmallCoerceBranch(env, t, Branches(kids, OneOf), v2, depth);
    var v3 := if k.oneOf then CoerceUnion(env, t, Branches(kids, OneOf), v2, depth) else v2;
    SmallTypes(t, k.types, v3);
  }

  /** Once something small stands in place of a number beyond 64 bits, converting
      and coercing by whatever schemas never bring such a number back. */
  lemma {:induction false} SmallStays(env: Env, t: Texts, depth: nat)
    requires Sane(t)
    ensures SmallAt(env, t, depth)
    decreases Room(env.maxDepth, depth)
  {
    forall pass, s, w | pass != DropNulls && Small(t, w)
      ensures Small(t, Run(pass, env, t, s, w, depth))
    {
      hide ConvertNode, CoerceNode, Small, SmallAt, Sane;
      if depth < env.maxDepth && s.Node? {
        SmallStays(env, t, depth + 1);
        if pass == Convert {
          SmallConvert(env, t, s, w, depth + 1);
        } else {
          SmallCoerce(env, t, s.local, s.kids, w, depth + 1);
        }
      }
    }
  }

  lemma BigIsSmall(t: Texts, v: Value, w: Value)
    requires Big(v)
    ensures Grown(t, v, w) <==> Small(t, w)
  {
  }

  /** What was changed once is never undone by converting and coercing, by whatever
      schemas. */
  lemma {:induction false} GrownStays(env: Env, t: Texts, depth: nat)
    requires Sane(t)
    ensures Stays(env, t, depth)
    decreases Room(env.maxDepth, depth)
  {
    SmallStays(env, t, depth);
    forall pass, s, v, w | pass != DropNulls && Grown(t, v, w)
      ensures Grown(t, v, Run(pass, env, t, s, w, depth))
    {
      hide ConvertNode, CoerceNode, Grown, Stays, Sane, Small, SmallAt;
      if Big(v) {
        BigIsSmall(t, v, w);
        SmallOnce(pass, env, t, s, w, depth);
        BigIsSmall(t, v, Run(pass, env, t, s, w, depth));
      } else if depth < env.maxDepth && s.Node? {
        GrownStays(env, t, depth + 1);
        if pass == Convert {
          ConvertStays(env, t, s, v, w, depth + 1);
        } else {
          CoerceStays(env, t, s.local, s.kids, v, w, depth + 1);
        }
      }
    }
  }

  // ---------------------------------------------------------------------------
  // What becomes of a valid value
  // ---------------------------------------------------------------------------

  /** The keys of every object differ, as they do in a map. */
  predicate Keyed(v: Value) {
    match v
    case Arr(items) => forall i :: 0 <= i < |items| ==> Keyed(items[i])
    case Obj(fields) => DistinctKeys(fields) && forall i :: 0 <= i < |fields| ==> Keyed(fields[i].value)
    case _ => true
  }

  predicate DistinctKeys(fields: seq<Field>) {
    forall i, j :: 0 <= i < j < |fields| ==> fields[i].key != fields[j].key
  }

  /** The value is as it was, or for good another one if it was changed. */
  ghost predicate Follows(t: Texts, v: Value, w: Value, changed: bool) { if changed then Grown(t, v, w) else w == v }

  /** In this pass the value meets a change of the kind. */
  predicate MeetsIn(pass: Pass, env: Env, s: Schema, v: Value, depth: nat) {
    pass.Convert? && Meets(env, s, v, depth)
  }

  /** On valid values the pass does what is said it does. */
  ghost predicate Predicted(pass: Pass, env: Env, t: Texts, s: Schema, depth: nat) {
    forall v :: Keyed(v) && Check(env, s, v, 1) ==>
      Follows(t, v, Run(pass, env, t, s, v, depth), MeetsIn(pass, env, s, v, depth))
  }

  ghost predicate KidsPredicted(pass: Pass, env: Env, t: Texts, kids: seq<Kid>, depth: nat) {
    forall i :: 0 <= i < |kids| ==> Predicted(pass, env, t, kids[i].schema, depth)
  }

  /** One more schema that the value passes: it changes what is still as it was, or
      finds it grown. */
  lemma OneMore(
    pass: Pass, env: Env, t: Texts, s: Schema, v: Value, w: Value, changed: bool, depth: nat)
    requires Predicted(pass, env, t, s, depth) && (pass != DropNulls ==> Stays(env, t, depth))
    requires Keyed(v) && Check(env, s, v, 1)
    requires Follows(t, v, w, changed) && (pass == DropNulls ==> !changed)
    ensures Follows(t, v, Run(pass, env, t, s, w, depth), changed || MeetsIn(pass, env, s, v, depth))
  {
    hide Check, Run, Keyed, Grown, MeetsIn;
    if changed {
      StaysOnce(pass, env, t, s, v, w, depth);
    }
  }

  ghost predicate Ready(pass: Pass, env: Env, t: Texts, kids: seq<Kid>, depth: nat) {
    && KidsPredicted(pass, env, t, kids, depth) && KidsSame(env, kids, 0, 1)
    && (pass != DropNulls ==> Stays(env, t, depth))
  }

  lemma ReadyTail(pass: Pass, env: Env, t: Texts, kids: seq<Kid>, depth: nat)
    requires kids != [] && Ready(pass, env, t, kids, depth)
    ensures Ready(pass, env, t, kids[1..], depth) && Predicted(pass, env, t, kids[0].schema, depth)
    ensures pass != DropNulls ==> Stays(env, t, depth)
  {
    hide Predicted, SameAt, Stays;
  }

  lemma {:induction false} PatternsMeetTail(env: Env, kids: seq<Kid>, key: string, v: Value, depth: nat)
    requires kids != []
    ensures PatternsMeet(env, kids, key, v, depth) <==>
      ((Matches(env, kids[0], key) && Meets(env, kids[0].schema, v, depth))
       || PatternsMeet(env, kids[1..], key, v, depth))
  {
    hide Meets;
    assert forall j :: 1 <= j < |kids| ==> kids[j] == kids[1..][j - 1];
    assert forall j :: 0 <= j < |kids[1..]| ==> kids[1..][j] == kids[j + 1];
  }

  lemma {:induction false} PatternsFollow(
    pass: Pass, env: Env, t: Texts, kids: seq<Kid>, key: string, v: Value, w: Value, changed: bool, depth: nat)
    requires Ready(pass, env, t, kids, depth) && Keyed(v)
    requires forall j :: 0 <= j < |kids| && Matches(env, kids[j], key) ==> Check(env, kids[j].schema, v, 1)
    requires Follows(t, v, w, changed) && (pass == DropNulls ==> !changed)
    ensures Follows(
      t, v, RunPatterns(pass, env, t, kids, key, w, depth),
      changed || (pass.Convert? && PatternsMeet(env, kids, key, v, depth)))
    decreases |kids|
  {
    hide Check, Run, Keyed, Grown, Follows, Meets, Stays, Ready, Predicted, PatternsMeet;
    if kids != [] {
      ReadyTail(pass, env, t, kids, depth);
      PatternsMeetTail(env, kids, key, v, depth);
      assert forall j :: 0 <= j < |kids[1..]| ==> kids[1..][j] == kids[j + 1];
      var matched := Matches(env, kids[0], key);
      var next := if matched then Run(pass, env, t, kids[0].schema, w, depth) else w;
      if matched {
        OneMore(pass, env, t, kids[0].schema, v, w, changed, depth);
      }
      PatternsFollow(
        pass, env, t, kids[1..], key, v, next,
        changed || (matched && MeetsIn(pass, env, kids[0].schema, v, depth)), depth);
    } else {
      NothingMeets(env, key, AllOf, v, depth);
    }
  }

  lemma NothingMeets(env: Env, key: string, r: Role, v: Value, depth: nat)
    ensures !PatternsMeet(env, [], key, v, depth) && !RoleMeets(env, [], r, v, depth)
  {
  }

  lemma {:induction false} RoleFollows(
    pass: Pass, env: Env, t: Texts, kids: seq<Kid>, r: Role, v: Value, w: Value, changed: bool, depth: nat)
    requires Ready(pass, env, t, kids, depth) && Keyed(v)
    requires forall j :: 0 <= j < |kids| && kids[j].role == r ==> Check(env, kids[j].schema, v, 1)
    requires Follows(t, v, w, changed) && (pass == DropNulls ==> !changed)
    ensures Follows(
      t, v, RunRole(pass, env, t, kids, r, w, depth),
      changed || (pass.Convert? && RoleMeets(env, kids, r, v, depth)))
    decreases |kids|
  {
    hide Check, Run, Keyed, Grown, Follows, Meets, Stays, Ready, Predicted;
    if kids != [] {
      ReadyTail(pass, env, t, kids, depth);
      assert forall j :: 0 <= j < |kids[1..]| ==> kids[1..][j] == kids[j + 1];
      var next := if kids[0].role == r then Run(pass, env, t, kids[0].schema, w, depth) else w;
      if kids[0].role == r {
        OneMore(pass, env, t, kids[0].schema, v, w, changed, depth);
      }
      RoleFollows(
        pass, env, t, kids[1..], r, v, next,
        changed || (kids[0].role == r && MeetsIn(pass, env, kids[0].schema, v, depth)), depth);
    } else {
      NothingMeets(env, "", r, v, depth);
    }
  }

  lemma {:induction false} FirstIsKid(kids: seq<Kid>, r: Role) returns (i: nat)
    requires First(kids, r).Some?
    ensures i < |kids| && kids[i].role == r && kids[i].schema == First(kids, r).value
  {
    if kids[0].role == r {
      i := 0;
    } else {
      i := FirstIsKid(kids[1..], r);
      i := i + 1;
    }
  }

  lemma FirstReady(pass: Pass, env: Env, t: Texts, kids: seq<Kid>, r: Role, depth: nat)
    requires Ready(pass, env, t, kids, depth) && First(kids, r).Some?
    ensures Predicted(pass, env, t, First(kids, r).value, depth) && SameAt(env, First(kids, r).value, 0, 1)
  {
    hide Predicted, SameAt, Stays;
    var i := FirstIsKid(kids, r);
  }

  /** The field of a valid object: with a key that is there once, its property is
      checked against this very field. */
  ghost predicate FieldValid(env: Env, kids: seq<Kid>, f: Field) {
    && FieldPasses(env, kids, f, 1)
    && (First(kids, Property(f.key)).Some? ==> Check(env, First(kids, Property(f.key)).value, f.value, 1))
  }

  lemma FieldFollows(pass: Pass, env: Env, t: Texts, k: Local, kids: seq<Kid>, f: Field, depth: nat)
    requires Ready(pass, env, t, kids, depth) && Keyed(f.value) && FieldValid(env, kids, f)
    ensures var after := RunField(pass, env, t, k, kids, f, depth);
      && |after| == 1 && after[0].key == f.key
      && Follows(t, f.value, after[0].value, pass.Convert? && FieldMeets(env, kids, f, depth))
  {
    hide Check, Run, Keyed, Claimed, RunPatterns, PatternsMeet, Ready, Grown, Meets, First, Predicted;
    var v := f.value;
    var property, additional := First(kids, Property(f.key)), First(kids, Additional);
    KeptByProperty(pass, env, kids, f);
    var v1, changed1 := v, false;
    if property.Some? {
      FirstReady(pass, env, t, kids, Property(f.key), depth);
      ReadyStays(pass, env, t, kids, depth);
      OneMore(pass, env, t, property.value, v, v, false, depth);
      v1, changed1 := Run(pass, env, t, property.value, v, depth), MeetsIn(pass, env, property.value, v, depth);
    }
    PatternsFollow(pass, env, t, kids, f.key, v, v1, changed1, depth);
    var v2 := RunPatterns(pass, env, t, kids, f.key, v1, depth);
    if !Claimed(env, kids, f.key) && additional.Some? {
      FirstReady(pass, env, t, kids, Additional, depth);
      ReadyStays(pass, env, t, kids, depth);
      OneMore(
        pass, env, t, additional.value, v, v2,
        changed1 || (pass.Convert? && PatternsMeet(env, kids, f.key, v, depth)), depth);
    }
    PropertySame(pass, env, t, kids, f, depth);
  }

  lemma ReadyStays(pass: Pass, env: Env, t: Texts, kids: seq<Kid>, depth: nat)
    requires Ready(pass, env, t, kids, depth)
    ensures pass != DropNulls ==> Stays(env, t, depth)
  {
  }

  lemma KeptByProperty(pass: Pass, env: Env, kids: seq<Kid>, f: Field)
    requires FieldValid(env, kids, f)
    ensures forall j :: 0 <= j < |kids| && Matches(env, kids[j], f.key) ==> Check(env, kids[j].schema, f.value, 1)
    ensures !Claimed(env, kids, f.key) && First(kids, Additional).Some? ==>
      Check(env, First(kids, Additional).value, f.value, 1)
  {
  }

  /** A null that its property allows is not dropped. */
  lemma PropertySame(pass: Pass, env: Env, t: Texts, kids: seq<Kid>, f: Field, depth: nat)
    requires Ready(pass, env, t, kids, depth) && FieldValid(env, kids, f)
    ensures var property := First(kids, Property(f.key));
      property.Some? && f.value.Null? ==> Passes(env, property.value, Null)
  {
    hide Predicted, Stays, FieldPasses;
    if First(kids, Property(f.key)).Some? {
      FirstReady(pass, env, t, kids, Property(f.key), depth);
    }
  }

  lemma {:induction false} GetIs(fields: seq<Field>, i: nat)
    requires DistinctKeys(fields) && i < |fields|
    ensures Get(fields, fields[i].key) == Some(fields[i].value)
  {
    if i > 0 {
      assert forall j :: 0 <= j < |fields[1..]| ==> fields[1..][j] == fields[j + 1];
      GetIs(fields[1..], i - 1);
    }
  }

  lemma FieldIsValid(env: Env, k: Local, kids: seq<Kid>, v: Value, i: nat)
    requires v.Obj? && i < |v.fields| && DistinctKeys(v.fields) && Check(env, Node(k, kids), v, 0)
    ensures FieldValid(env, kids, v.fields[i])
  {
    GetIs(v.fields, i);
    if First(kids, Property(v.fields[i].key)).Some? {
      var j := FirstIsKid(kids, Property(v.fields[i].key));
      assert KidsOk(env, kids, v, 1);
    }
  }

  lemma ObjectFollows(pass: Pass, env: Env, t: Texts, k: Local, kids: seq<Kid>, v: Value, depth: nat)
    requires Ready(pass, env, t, kids, depth) && v.Obj? && Keyed(v) && Check(env, Node(k, kids), v, 0)
    ensures Follows(
      t, v, Obj(RunFields(pass, env, t, k, kids, v.fields, depth)),
      pass.Convert? && FieldsMeet(env, kids, v, depth))
  {
    hide Check, Ready, RunField, FieldMeets, FieldValid;
    forall j | 0 <= j < |v.fields|
      ensures var after := RunField(pass, env, t, k, kids, v.fields[j], depth);
        && |after| == 1 && after[0].key == v.fields[j].key
        && Follows(t, v.fields[j].value, after[0].value, pass.Convert? && FieldMeets(env, kids, v.fields[j], depth))
    {
      FieldIsValid(env, k, kids, v, j);
      FieldFollows(pass, env, t, k, kids, v.fields[j], depth);
    }
    FieldsAfter(pass, env, t, k, kids, v.fields, depth);
    var after := RunFields(pass, env, t, k, kids, v.fields, depth);
    if pass.Convert? && FieldsMeet(env, kids, v, depth) {
      var i :| 0 <= i < |v.fields| && FieldMeets(env, kids, v.fields[i], depth);
      assert [after[i]] == RunField(pass, env, t, k, kids, v.fields[i], depth);
      assert Grown(t, v.fields[i].value, after[i].value);
    } else {
      forall j | 0 <= j < |v.fields|
        ensures after[j] == v.fields[j]
      {
        assert [after[j]] == RunField(pass, env, t, k, kids, v.fields[j], depth);
      }
      assert after == v.fields;
    }
  }

  lemma ItemSchemaReady(pass: Pass, env: Env, t: Texts, k: Local, kids: seq<Kid>, i: nat, depth: nat)
    requires Ready(pass, env, t, kids, depth) && ItemSchemaAt(k, kids, i).Some?
    ensures Predicted(pass, env, t, ItemSchemaAt(k, kids, i).value, depth)
    ensures ItemSchema(kids, i) == ItemSchemaAt(k, kids, i)
  {
    hide Ready, Predicted, First;
    FirstReady(pass, env, t, kids, if i < PrefixLength(kids) then Prefix(i) else Rest, depth);
  }

  lemma ArrayFollows(pass: Pass, env: Env, t: Texts, k: Local, kids: seq<Kid>, v: Value, depth: nat)
    requires Ready(pass, env, t, kids, depth) && v.Arr? && Keyed(v) && Check(env, Node(k, kids), v, 0)
    ensures Follows(
      t, v, Arr(RunItems(pass, env, t, k, kids, v.items, 0, depth)),
      pass.Convert? && ItemsMeet(env, k, kids, v, depth))
  {
    assert ItemsPass(env, kids, v, 1);
    hide Check, Ready, Run, Meets, ItemSchemaAt;
    ItemsAfter(pass, env, t, k, kids, v.items, 0, depth);
    var after := RunItems(pass, env, t, k, kids, v.items, 0, depth);
    forall j | 0 <= j < |v.items|
      ensures Follows(t, v.items[j], after[j], pass.Convert? && ItemMeets(env, k, kids, j, v.items[j], depth))
    {
      assert 0 + j == j;
      if ItemSchemaAt(k, kids, j).Some? {
        ItemSchemaReady(pass, env, t, k, kids, j, depth);
        ReadyStays(pass, env, t, kids, depth);
        OneMore(pass, env, t, ItemSchemaAt(k, kids, j).value, v.items[j], v.items[j], false, depth);
      }
    }
    if pass.Convert? && ItemsMeet(env, k, kids, v, depth) {
      var i :| 0 <= i < |v.items| && ItemMeets(env, k, kids, i, v.items[i], depth);
      assert Grown(t, v.items[i], after[i]);
    } else {
      assert after == v.items;
    }
  }

  function KeySet(fields: seq<Field>): set<string> {
    if fields == [] then {} else {fields[0].key} + KeySet(fields[1..])
  }

  lemma {:induction false} KeySetIs(fields: seq<Field>, key: string)
    ensures key in KeySet(fields) <==> Has(fields, key)
    ensures key in KeySet(fields) <==> exists i :: 0 <= i < |fields| && fields[i].key == key
  {
    if fields != [] {
      KeySetIs(fields[1..], key);
      assert forall i :: 1 <= i < |fields| ==> fields[i] == fields[1..][i - 1];
      if fields[0].key == key {
        assert fields[0].key == key;
      } else if key in KeySet(fields[1..]) {
        var i :| 0 <= i < |fields[1..]| && fields[1..][i].key == key;
        assert fields[i + 1].key == key;
      }
    }
  }

  /** There are as many keys as fields exactly when the keys differ. */
  lemma {:induction false} KeySetSize(fields: seq<Field>)
    ensures |KeySet(fields)| <= |fields|
    ensures |KeySet(fields)| == |fields| <==> DistinctKeys(fields)
  {
    if fields != [] {
      var rest := fields[1..];
      KeySetSize(rest);
      KeySetIs(rest, fields[0].key);
      assert forall i :: 1 <= i < |fields| ==> fields[i] == rest[i - 1];
      if fields[0].key in KeySet(rest) {
        assert KeySet(fields) == KeySet(rest);
        var i :| 0 <= i < |rest| && rest[i].key == fields[0].key;
        assert fields[i + 1].key == fields[0].key;
      } else {
        assert |KeySet(fields)| == 1 + |KeySet(rest)|;
        if DistinctKeys(rest) {
          forall i, j | 0 <= i < j < |fields|
            ensures fields[i].key != fields[j].key
          {
            if i == 0 {
              assert rest[j - 1].key == fields[j].key;
            } else {
              assert rest[i - 1].key != rest[j - 1].key;
            }
          }
        } else {
          var i, j :| 0 <= i < j < |rest| && rest[i].key == rest[j].key;
          assert fields[i + 1].key == fields[j + 1].key;
        }
      }
    }
  }

  lemma SubsetOfSameSize(a: set<string>, b: set<string>)
    requires a <= b && |b| <= |a|
    ensures a == b
  {
    if a != b {
      var x :| x in b && x !in a;
      assert |b - {x}| == |b| - 1 && a <= b - {x};
      SubsetIsSmaller(a, b - {x});
    }
  }

  lemma {:induction false} SubsetIsSmaller(a: set<string>, b: set<string>)
    requires a <= b
    ensures |a| <= |b|
    decreases |a|
  {
    if a != {} {
      var x :| x in a;
      SubsetIsSmaller(a - {x}, b - {x});
    }
  }

  /** Objects that contain each other's keys one way have the same ones. */
  lemma SameKeys(fs: seq<Field>, gs: seq<Field>)
    requires DistinctKeys(fs) && |fs| == |gs|
    requires forall i :: 0 <= i < |fs| ==> Has(gs, fs[i].key)
    ensures DistinctKeys(gs) && forall j :: 0 <= j < |gs| ==> Has(fs, gs[j].key)
  {
    KeySetSize(fs);
    KeySetSize(gs);
    forall key | key in KeySet(fs)
      ensures key in KeySet(gs)
    {
      KeySetIs(fs, key);
      KeySetIs(gs, key);
    }
    SubsetOfSameSize(KeySet(fs), KeySet(gs));
    forall j | 0 <= j < |gs|
      ensures Has(fs, gs[j].key)
    {
      KeySetIs(gs, gs[j].key);
      KeySetIs(fs, gs[j].key);
    }
  }

  lemma {:induction false} HasAt(fields: seq<Field>, key: string) returns (i: nat)
    requires Has(fields, key)
    ensures i < |fields| && fields[i].key == key && Get(fields, key) == Some(fields[i].value)
  {
    if fields[0].key == key {
      i := 0;
    } else {
      i := HasAt(fields[1..], key);
      i := i + 1;
    }
  }

  lemma {:induction false} EqualSymmetric(a: Value, b: Value)
    requires Keyed(a) && Equal(a, b)
    ensures Equal(b, a)
    decreases a
  {
    match (a, b)
    case (Arr(xs), Arr(ys)) =>
      forall i | 0 <= i < |ys|
        ensures Equal(ys[i], xs[i])
      {
        EqualSymmetric(xs[i], ys[i]);
      }
    case (Obj(fs), Obj(gs)) =>
      SameKeys(fs, gs);
      forall j | 0 <= j < |gs|
        ensures Get(fs, gs[j].key).Some? && Equal(gs[j].value, Get(fs, gs[j].key).value)
      {
        var i := HasAt(fs, gs[j].key);
        GetIs(gs, j);
        EqualSymmetric(fs[i].value, gs[j].value);
      }
    case (_, _) =>
  }

  // ---------------------------------------------------------------------------
  // Nodes
  // ---------------------------------------------------------------------------

  /** What a valid value satisfies among the keywords a pass looks at first. */
  lemma ValidFacts(env: Env, k: Local, kids: seq<Kid>, v: Value)
    requires Check(env, Node(k, kids), v, 0) && KidsSame(env, kids, 0, 1)
    ensures TypeOk(k, v) && ConstOk(k, v) && EnumOk(k, v)
    ensures k.anyOf ==> Passing(env, Branches(kids, AnyOf), v, 0) > 0
    ensures k.oneOf ==> Passing(env, Branches(kids, OneOf), v, 0) > 0
    ensures forall j :: 0 <= j < |kids| && kids[j].role == AllOf ==> Check(env, kids[j].schema, v, 1)
  {
    PassingSame(env, kids, AnyOf, v, 0, 1);
    PassingSame(env, kids, OneOf, v, 0, 1);
  }

  lemma NegatedFloor(n: real)
    requires IsIntegral(n)
    ensures IsIntegral(-n) && (-n).Floor == -n.Floor
  {
    var i := n.Floor;
    assert -n == (-i) as real;
    assert ((-i) as real).Floor == -i;
  }

  lemma CastKeeps(n: real)
    requires IsIntegral(n)
    ensures ToI64(n) == n <==> Fits64(n)
  {
    NegatedFloor(n);
    assert Truncate(n) == n;
  }

  lemma PartsFollow(pass: Pass, env: Env, t: Texts, k: Local, kids: seq<Kid>, v: Value, depth: nat)
    requires pass != Convert && Ready(pass, env, t, kids, depth) && Keyed(v) && Check(env, Node(k, kids), v, 0)
    ensures RunParts(pass, env, t, k, kids, v, depth) == v
  {
    hide Check, Ready, RunItems, RunFields, Keyed, Grown;
    if v.Arr? {
      ArrayFollows(pass, env, t, k, kids, v, depth);
    }
    if v.Obj? {
      ObjectFollows(pass, env, t, k, kids, v, depth);
    }
  }

  /** The members of `allOf`, and the unions: a valid value passes one of their branches. */
  lemma CoerceBranchesKeep(env: Env, t: Texts, k: Local, kids: seq<Kid>, v: Value, depth: nat)
    requires Ready(Coerce, env, t, kids, depth) && Keyed(v) && Check(env, Node(k, kids), v, 0)
    ensures RunRole(Coerce, env, t, kids, AllOf, v, depth) == v
    ensures k.anyOf ==> CoerceUnion(env, t, Branches(kids, AnyOf), v, depth) == v
    ensures k.oneOf ==> CoerceUnion(env, t, Branches(kids, OneOf), v, depth) == v
  {
    ReadySame(Coerce, env, t, kids, depth);
    ValidFacts(env, k, kids, v);
    hide Check, Ready, RunRole, Passing, Keyed, Grown, CoerceToBranch, KidsSame, Branches;
    RoleFollows(Coerce, env, t, kids, AllOf, v, v, false, depth);
  }

  /** The types: a valid value has one of them already. */
  lemma CoerceTypesKeep(env: Env, t: Texts, k: Local, kids: seq<Kid>, v: Value)
    requires Check(env, Node(k, kids), v, 0)
    ensures (if |k.types| > 1 && TypeOk(k, v) then v else CoerceTo(t, k.types, v)) == v
  {
    assert TypeOk(k, v);
    hide Check, TypeOk, Equal;
    if |k.types| == 1 {
      OneTypeKeeps(t, k, v);
    }
  }

  lemma CoerceKeeps(env: Env, t: Texts, k: Local, kids: seq<Kid>, v: Value, depth: nat)
    requires Ready(Coerce, env, t, kids, depth) && Keyed(v) && Check(env, Node(k, kids), v, 0)
    ensures CoerceNode(env, t, k, kids, v, depth) == v
  {
    hide Check, Ready, RunFields, RunItems, RunRole, Keyed, TypeOk, Grown, CoerceUnion, CoerceTo, Branches;
    CoerceBranchesKeep(env, t, k, kids, v, depth);
    CoerceTypesKeep(env, t, k, kids, v);
    PartsFollow(Coerce, env, t, k, kids, v, depth);
  }

  lemma OneTypeKeeps(t: Texts, k: Local, v: Value)
    requires |k.types| == 1 && TypeOk(k, v)
    ensures MatchesType(v, k.types[0]) && CoerceTo(t, k.types, v) == v
  {
    hide Equal, ToI64;
    assert MatchesType(v, k.types[0]);
    assert k.types[1..] == [];
  }

  lemma ConvertObjectFollows(env: Env, t: Texts, k: Local, kids: seq<Kid>, v: Value, depth: nat)
    requires Ready(Convert, env, t, kids, depth) && Keyed(v) && Check(env, Node(k, kids), v, 0)
    ensures Follows(t, v, ConvertObject(env, t, k, kids, v, depth), FieldsMeet(env, kids, v, depth))
  {
    hide Check, Ready, RunFields, Keyed, Grown, FieldMeets;
    if v.Obj? {
      ObjectFollows(Convert, env, t, k, kids, v, depth);
    }
  }

  lemma ConvertTypeFollows(env: Env, t: Texts, k: Local, kids: seq<Kid>, v: Value, depth: nat)
    requires Ready(Convert, env, t, kids, depth) && Keyed(v) && Check(env, Node(k, kids), v, 0) && |k.types| == 1
    ensures Follows(
      t, v, ConvertByType(env, t, k, kids, k.types[0], v, depth), TypeMeets(env, k, kids, k.types[0], v, depth))
  {
    assert TypeOk(k, v);
    hide Check, Ready, RunItems, Keyed, Grown, FieldsMeet, ItemsMeet, ToI64, ConvertObject;
    OneTypeKeeps(t, k, v);
    if v.Num? && IsIntegral(v.n) {
      CastKeeps(v.n);
      CastFits(v.n);
    }
    if k.types[0] == "array" {
      ArrayFollows(Convert, env, t, k, kids, v, depth);
    }
    if k.types[0] == "object" {
      ConvertObjectFollows(env, t, k, kids, v, depth);
    }
  }

  lemma MembersFollow(env: Env, t: Texts, s: Schema, v: Value, w: Value, changed: bool, depth: nat)
    requires s.Node? && Ready(Convert, env, t, s.kids, depth) && Keyed(v) && Check(env, s, v, 0)
    requires Follows(t, v, w, changed)
    ensures Follows(
      t, v, ConvertMembers(env, t, s, w, depth),
      changed || (HasMembers(s.local, s.kids) && FieldsMeet(env, s.kids, v, depth)))
  {
    hide Check, Ready, ConvertObject, Keyed, Grown, FieldsMeet, HasMembers;
    if changed && Big(v) {
      BigIsSmall(t, v, w);
      SmallContainer(env, t, s, w, depth);
      BigIsSmall(t, v, ConvertMembers(env, t, s, w, depth));
    } else if changed {
      ReadyStays(Convert, env, t, s.kids, depth);
      MembersStay(env, t, s, v, w, depth);
    } else if HasMembers(s.local, s.kids) {
      ConvertObjectFollows(env, t, s.local, s.kids, v, depth);
    }
  }

  lemma LiteralsKeep(env: Env, t: Texts, s: Schema, v: Value)
    requires s.Node? && Keyed(v) && ConstOk(s.local, v) && EnumOk(s.local, v)
    ensures s.local.constant.Some? ==> ConvertLiteral(t, s.local.constant.value, v) == v
    ensures s.local.enumeration.Some? ==> ConvertEnum(env, t, s, s.local.enumeration.value, v) == v
  {
    hide Keyed, Check;
    var k := s.local;
    if k.constant.Some? {
      EqualSymmetric(v, k.constant.value);
    }
    if k.enumeration.Some? {
      var i :| 0 <= i < |k.enumeration.value| && Equal(v, k.enumeration.value[i]);
      EqualSymmetric(v, k.enumeration.value[i]);
    }
    hide Equal;
  }

  lemma UnionFollows(env: Env, t: Texts, s: Schema, v: Value, depth: nat)
    requires s.Node? && Ready(Convert, env, t, s.kids, depth) && Keyed(v) && Check(env, s, v, 0)
    requires s.local.anyOf || s.local.oneOf
    ensures var r := if s.local.anyOf then AnyOf else OneOf;
      Follows(
        t, v, ConvertUnion(env, t, s, Branches(s.kids, r), v, depth),
        HasMembers(s.local, s.kids) && FieldsMeet(env, s.kids, v, depth))
  {
    ReadySame(Convert, env, t, s.kids, depth);
    ValidFacts(env, s.local, s.kids, v);
    hide Check, Ready, ConvertMembers, Keyed, Grown, FieldsMeet, HasMembers, Passing, Branches, KidsSame;
    MembersFollow(env, t, s, v, v, false, depth);
  }

  lemma ReadySame(pass: Pass, env: Env, t: Texts, kids: seq<Kid>, depth: nat)
    requires Ready(pass, env, t, kids, depth)
    ensures KidsSame(env, kids, 0, 1)
  {
  }

  lemma AllOfFollows(env: Env, t: Texts, s: Schema, v: Value, depth: nat)
    requires s.Node? && Ready(Convert, env, t, s.kids, depth) && Keyed(v) && Check(env, s, v, 0)
    ensures Follows(
      t, v, ConvertMembers(env, t, s, RunRole(Convert, env, t, s.kids, AllOf, v, depth), depth),
      RoleMeets(env, s.kids, AllOf, v, depth)
      || (HasMembers(s.local, s.kids) && FieldsMeet(env, s.kids, v, depth)))
  {
    ReadySame(Convert, env, t, s.kids, depth);
    ValidFacts(env, s.local, s.kids, v);
    hide Check, Ready, ConvertMembers, Keyed, Grown, FieldsMeet, HasMembers, RoleMeets, RunRole, KidsSame;
    RoleFollows(Convert, env, t, s.kids, AllOf, v, v, false, depth);
    MembersFollow(
      env, t, s, v, RunRole(Convert, env, t, s.kids, AllOf, v, depth),
      RoleMeets(env, s.kids, AllOf, v, depth), depth);
  }

  /** A type given as a string is one type. */
  predicate OneTypeWhenPlain(k: Local) { !k.typeIsList ==> |k.types| <= 1 }

  lemma ConvertFollows(env: Env, t: Texts, s: Schema, v: Value, depth: nat)
    requires s.Node? && Ready(Convert, env, t, s.kids, depth) && Keyed(v) && Check(env, s, v, 0)
    requires OneTypeWhenPlain(s.local)
    ensures Follows(t, v, ConvertNode(env, t, s, v, depth), NodeMeets(env, s.local, s.kids, v, depth))
  {
    var k, kids := s.local, s.kids;
    hide Check, Ready, ConvertUnion, ConvertMembers, ConvertByType, ConvertObject, ConvertLiteral, ConvertEnum,
         RunRole, RunItems, Keyed, Grown, FieldsMeet, ItemsMeet, RoleMeets, TypeMeets, HasMembers, HasProperties,
         HasItems, HasAllOf, HasPrefix, Branches;
    LiteralFacts(env, k, kids, v);
    LiteralsKeep(env, t, s, v);
    if k.constant.Some? || k.enumeration.Some? {
    } else if k.anyOf || k.oneOf {
      UnionFollows(env, t, s, v, depth);
    } else if HasAllOf(k, kids) {
      AllOfFollows(env, t, s, v, depth);
    } else if k.types != [] && !k.typeIsList {
      ConvertTypeFollows(env, t, k, kids, v, depth);
    } else if HasProperties(k, kids) {
      ConvertObjectFollows(env, t, k, kids, v, depth);
    } else if HasItems(k, kids) {
      BareFollows(env, t, k, kids, v, depth);
    }
  }

  lemma LiteralFacts(env: Env, k: Local, kids: seq<Kid>, v: Value)
    requires Check(env, Node(k, kids), v, 0)
    ensures ConstOk(k, v) && EnumOk(k, v)
  {
  }

  lemma BareFollows(env: Env, t: Texts, k: Local, kids: seq<Kid>, v: Value, depth: nat)
    requires Ready(Convert, env, t, kids, depth) && Keyed(v) && Check(env, Node(k, kids), v, 0)
    ensures Follows(
      t, v, ConvertArray(env, t, k, kids, v, depth),
      if v.Arr? then ItemsMeet(env, k, kids, v, depth) else !HasPrefix(k, kids))
  {
    hide Check, Ready, RunItems, Keyed, ItemMeets, Run, HasPrefix;
    if v.Arr? {
      ArrayFollows(Convert, env, t, k, kids, v, depth);
    }
  }

  // ---------------------------------------------------------------------------
  // The main results
  // ---------------------------------------------------------------------------

  predicate WellTyped(s: Schema) {
    match s
    case Allow(_) => true
    case Node(k, kids) => OneTypeWhenPlain(k) && AllWellTyped(kids)
  }

  predicate KidWellTyped(kid: Kid) { WellTyped(kid.schema) }

  predicate AllWellTyped(kids: seq<Kid>) { kids == [] || (KidWellTyped(kids[0]) && AllWellTyped(kids[1..])) }

  lemma {:induction false} WellTypedAt(kids: seq<Kid>, i: nat)
    requires AllWellTyped(kids) && i < |kids|
    ensures WellTyped(kids[i].schema)
  {
    if i > 0 {
      WellTypedAt(kids[1..], i - 1);
    }
  }

  /** Every pass does to every valid value what `Meets` says. */
  lemma {:induction false} PassIsPredicted(pass: Pass, env: Env, t: Texts, s: Schema, depth: nat)
    requires WellTyped(s) && Height(s) + 1 <= Limit(env.maxDepth) && Sane(t)
    ensures Predicted(pass, env, t, s, depth)
    decreases Height(s)
  {
    if s.Node? && depth < env.maxDepth {
      var k, kids := s.local, s.kids;
      forall i | 0 <= i < |kids|
        ensures Predicted(pass, env, t, kids[i].schema, depth + 1) && SameAt(env, kids[i].schema, 0, 1)
      {
        KidHeight(kids, i);
        WellTypedAt(kids, i);
        PassIsPredicted(pass, env, t, kids[i].schema, depth + 1);
        DepthDoesNotMatter(env, kids[i].schema, 0, 1);
      }
      GrownStays(env, t, depth + 1);
      DepthDoesNotMatter(env, s, 0, 1);
      assert Ready(pass, env, t, kids, depth + 1);
      forall v | Keyed(v) && Check(env, s, v, 1)
        ensures Follows(t, v, Run(pass, env, t, s, v, depth), MeetsIn(pass, env, s, v, depth))
      {
        hide Check, Run, Meets, Keyed, Grown, Ready;
        NodePassIsPredicted(pass, env, t, s, v, depth);
      }
    }
  }

  lemma NodePassIsPredicted(pass: Pass, env: Env, t: Texts, s: Schema, v: Value, depth: nat)
    requires s.Node? && depth < env.maxDepth && OneTypeWhenPlain(s.local)
    requires Ready(pass, env, t, s.kids, depth + 1) && Keyed(v) && Check(env, s, v, 0)
    ensures Follows(t, v, Run(pass, env, t, s, v, depth), MeetsIn(pass, env, s, v, depth))
  {
    hide Ready, Check, Keyed, Grown, ConvertNode, CoerceNode, RunParts, NodeMeets;
    match pass {
      case DropNulls => PartsFollow(DropNulls, env, t, s.local, s.kids, v, depth + 1);
      case Convert => ConvertFollows(env, t, s, v, depth + 1);
      case Coerce => CoerceKeeps(env, t, s.local, s.kids, v, depth + 1);
    }
  }

  /** For every schema without references and every valid value, the three passes
      keep the value if and only if it meets no change on the way of the conversion. */
  lemma KeptExactly(env: Env, t: Texts, s: Schema, v: Value)
    requires WellTyped(s) && Height(s) + 1 <= Limit(env.maxDepth) && Sane(t)
    requires Keyed(v) && Passes(env, s, v)
    ensures CoerceValue(env, t, s, v) == v <==> !Meets(env, s, v, 0)
    ensures Parse(env, t, s, v) == Some(v) <==> !Meets(env, s, v, 0)
  {
    DepthDoesNotMatter(env, s, 0, 1);
    PassIsPredicted(DropNulls, env, t, s, 0);
    PassIsPredicted(Convert, env, t, s, 0);
    PassIsPredicted(Coerce, env, t, s, 0);
    hide Check, Run, Meets, Grown, Keyed, Sane;
    if Meets(env, s, v, 0) {
      GrownStays(env, t, 0);
      var converted := Run(Convert, env, t, s, v, 0);
      StaysOnce(Coerce, env, t, s, v, converted, 0);
      GrownDiffers(t, v, CoerceValue(env, t, s, v));
    }
  }

  /** So parsing what was parsed gives it back exactly in these cases. */
  lemma ParseIsIdempotentExactly(env: Env, t: Texts, s: Schema, v: Value)
    requires WellTyped(s) && Height(s) + 1 <= Limit(env.maxDepth) && Sane(t)
    requires Parse(env, t, s, v).Some? && Keyed(Parse(env, t, s, v).value)
    ensures var r := Parse(env, t, s, v).value;
      Parse(env, t, s, r) == Parse(env, t, s, v) <==> !Meets(env, s, r, 0)
  {
    KeptExactly(env, t, s, Parse(env, t, s, v).value);
  }

  /** A node that wraps: nothing but `items` says what is expected. */
  predicate Bare(k: Local, kids: seq<Kid>) {
    && k.constant.None? && k.enumeration.None? && !k.anyOf && !k.oneOf && !HasAllOf(k, kids)
    && (k.types == [] || k.typeIsList) && !HasProperties(k, kids)
    && HasRole(kids, Rest) && !HasPrefix(k, kids)
  }

  predicate NoBare(s: Schema) {
    match s
    case Allow(_) => true
    case Node(k, kids) => !Bare(k, kids) && NoBareKids(kids)
  }

  predicate NoBareKid(kid: Kid) { NoBare(kid.schema) }

  predicate NoBareKids(kids: seq<Kid>) { kids == [] || (NoBareKid(kids[0]) && NoBareKids(kids[1..])) }

  lemma {:induction false} NoBareAt(kids: seq<Kid>, i: nat)
    requires NoBareKids(kids) && i < |kids|
    ensures NoBare(kids[i].schema)
  {
    if i > 0 {
      NoBareAt(kids[1..], i - 1);
    }
  }

  /** No number anywhere in the value is beyond 64 bits. */
  predicate AllFit(v: Value) {
    match v
    case Num(n) => Fits64(n)
    case Arr(items) => forall i :: 0 <= i < |items| ==> AllFit(items[i])
    case Obj(fields) => forall i :: 0 <= i < |fields| ==> AllFit(fields[i].value)
    case _ => true
  }

  ghost predicate NeverWraps(env: Env, s: Schema, depth: nat) { forall v :: AllFit(v) ==> !Meets(env, s, v, depth) }

  /** Without such a node only numbers beyond 64 bits are changed. */
  lemma {:induction false} NoBareNoWrap(env: Env, s: Schema, depth: nat)
    requires NoBare(s)
    ensures NeverWraps(env, s, depth)
    decreases Height(s)
  {
    if s.Node? && depth < env.maxDepth {
      var k, kids := s.local, s.kids;
      forall i | 0 <= i < |kids|
        ensures NeverWraps(env, kids[i].schema, depth + 1)
      {
        KidHeight(kids, i);
        NoBareAt(kids, i);
        NoBareNoWrap(env, kids[i].schema, depth + 1);
      }
      forall v | AllFit(v)
        ensures !Meets(env, s, v, depth)
      {
        NoKidNoWrap(env, k, kids, v, depth + 1);
      }
    }
  }

  lemma FirstNoWrap(env: Env, kids: seq<Kid>, r: Role, v: Value, depth: nat)
    requires AllFit(v)
    requires forall i :: 0 <= i < |kids| ==> NeverWraps(env, kids[i].schema, depth)
    ensures First(kids, r).Some? ==> !Meets(env, First(kids, r).value, v, depth)
  {
    if First(kids, r).Some? {
      var i := FirstIsKid(kids, r);
    }
  }

  lemma {:induction false} PatternsNoWrap(env: Env, kids: seq<Kid>, key: string, v: Value, depth: nat)
    requires AllFit(v)
    requires forall i :: 0 <= i < |kids| ==> NeverWraps(env, kids[i].schema, depth)
    ensures !PatternsMeet(env, kids, key, v, depth)
  {
    hide NodeMeets;
    forall i | 0 <= i < |kids|
      ensures !Meets(env, kids[i].schema, v, depth)
    {
      assert NeverWraps(env, kids[i].schema, depth);
    }
  }

  lemma {:induction false} RoleNoWrap(env: Env, kids: seq<Kid>, r: Role, v: Value, depth: nat)
    requires AllFit(v)
    requires forall i :: 0 <= i < |kids| ==> NeverWraps(env, kids[i].schema, depth)
    ensures !RoleMeets(env, kids, r, v, depth)
    decreases |kids|
  {
    hide NodeMeets;
    if kids != [] {
      assert NeverWraps(env, kids[0].schema, depth);
      assert forall i :: 0 <= i < |kids[1..]| ==> kids[1..][i] == kids[i + 1];
      RoleNoWrap(env, kids[1..], r, v, depth);
    }
  }

  lemma NoFieldWraps(env: Env, kids: seq<Kid>, v: Value, depth: nat)
    requires AllFit(v)
    requires forall i :: 0 <= i < |kids| ==> NeverWraps(env, kids[i].schema, depth)
    ensures !FieldsMeet(env, kids, v, depth)
  {
    hide First, Claimed, PatternsMeet, NeverWraps;
    if v.Obj? {
      forall i | 0 <= i < |v.fields|
        ensures !FieldMeets(env, kids, v.fields[i], depth)
      {
        FirstNoWrap(env, kids, Property(v.fields[i].key), v.fields[i].value, depth);
        FirstNoWrap(env, kids, Additional, v.fields[i].value, depth);
        PatternsNoWrap(env, kids, v.fields[i].key, v.fields[i].value, depth);
      }
    }
  }

  lemma NoItemWraps(env: Env, k: Local, kids: seq<Kid>, v: Value, depth: nat)
    requires AllFit(v)
    requires forall i :: 0 <= i < |kids| ==> NeverWraps(env, kids[i].schema, depth)
    ensures !ItemsMeet(env, k, kids, v, depth)
  {
    hide First, NeverWraps;
    if v.Arr? {
      forall i | 0 <= i < |v.items|
        ensures !ItemMeets(env, k, kids, i, v.items[i], depth)
      {
        FirstNoWrap(env, kids, Prefix(i), v.items[i], depth);
        FirstNoWrap(env, kids, Rest, v.items[i], depth);
      }
    }
  }

  lemma {:induction false} NoKidNoWrap(env: Env, k: Local, kids: seq<Kid>, v: Value, depth: nat)
    requires AllFit(v)
    requires forall i :: 0 <= i < |kids| ==> NeverWraps(env, kids[i].schema, depth)
    requires !Bare(k, kids)
    ensures !NodeMeets(env, k, kids, v, depth)
  {
    hide First, HasProperties, HasAllOf, HasMembers, HasPrefix, FieldsMeet, ItemsMeet, RoleMeets, NeverWraps;
    NoFieldWraps(env, kids, v, depth);
    NoItemWraps(env, k, kids, v, depth);
    RoleNoWrap(env, kids, AllOf, v, depth);
    if k.types != [] {
      assert !TypeMeets(env, k, kids, k.types[0], v, depth);
    }
  }

  /** So a schema in which every expected array says that it is one keeps every
      valid value without numbers beyond 64 bits. */
  lemma CoercionKeepsValid(env: Env, t: Texts, s: Schema, v: Value)
    requires WellTyped(s) && NoBare(s) && Height(s) + 1 <= Limit(env.maxDepth) && Sane(t)
    requires Keyed(v) && AllFit(v) && Passes(env, s, v)
    ensures CoerceValue(env, t, s, v) == v && Parse(env, t, s, v) == Some(v)
  {
    NoBareNoWrap(env, s, 0);
    KeptExactly(env, t, s, v);
  }

  /** A whole number of the type integer is kept exactly if it fits 64 bits. */
  lemma IntegerKeptExactly(env: Env, t: Texts, n: real)
    requires env.maxDepth > 0 && IsIntegral(n)
    ensures var s := Node(NO_KEYWORDS.(types := ["integer"]), []);
      && Passes(env, s, Num(n))
      && (CoerceValue(env, t, s, Num(n)) == Num(n) <==> Fits64(n))
      && CoerceValue(env, t, s, Num(n)) == Num(ToI64(n))
  {
    var k := NO_KEYWORDS.(types := ["integer"]);
    var s := Node(k, []);
    CastKeeps(n);
    assert MatchesType(Num(n), k.types[0]);
    assert Run(DropNulls, env, t, s, Num(n), 0) == Num(n);
    assert ConvertByType(env, t, k, [], "integer", Num(n), 1) == Num(ToI64(n));
    assert ConvertNode(env, t, s, Num(n), 1) == Num(ToI64(n)) by {
      assert k.types[0] == "integer" && First([], AllOf) == None;
    }
    CastIsIntegral(n);
    assert MatchesType(Num(ToI64(n)), k.types[0]);
    OneTypeKeeps(t, k, Num(ToI64(n)));
    assert RunRole(Coerce, env, t, [], AllOf, Num(ToI64(n)), 1) == Num(ToI64(n));
    assert Run(Coerce, env, t, s, Num(ToI64(n)), 0) == Num(ToI64(n));
  }

  lemma CastIsIntegral(n: real)
    ensures IsIntegral(ToI64(n))
  {
    assert I64_MAX == (9223372036854775808 as int) as real && I64_MIN == (-9223372036854775808 as int) as real;
    if n < 0.0 {
      var i := (-n).Floor;
      assert Truncate(n) == (-i) as real;
    }
  }

  /** A schema that says nothing but what items are like. */
  const BARE := Node(NO_KEYWORDS, [Kid(Rest, Node(NO_KEYWORDS, []))])

  /** Without the type, a schema for items changes a valid single value. */
  lemma UntypedItemsWrap(env: Env, t: Texts, n: real)
    requires env.maxDepth > 2 && Sane(t)
    ensures Passes(env, BARE, Num(n)) && Meets(env, BARE, Num(n), 0)
    ensures CoerceValue(env, t, BARE, Num(n)) != Num(n)
  {
    hide Check, Meets, Run, WellTyped, Height, Sane;
    BareShape();
    BarePasses(env, n);
    BareMeets(env, n);
    KeptExactly(env, t, BARE, Num(n));
  }

  lemma BareShape()
    ensures WellTyped(BARE) && Height(BARE) <= 2
    ensures First(BARE.kids, Rest) == Some(Node(NO_KEYWORDS, [])) && PrefixLength(BARE.kids) == 0
    ensures forall r: Role :: r != Rest ==> First(BARE.kids, r) == None && Branches(BARE.kids, r) == []
  {
    var kids := BARE.kids;
    assert kids[1..] == [] && KidWellTyped(kids[0]) && AllWellTyped([]);
    assert MaxHeight([]) == 0 && HeightOf(kids[0]) == 1;
  }

  lemma BarePasses(env: Env, n: real)
    ensures Passes(env, BARE, Num(n))
  {
    hide WellTyped, Height;
    BareShape();
    assert LocalOk(env, NO_KEYWORDS, Num(n)) && KidsOk(env, BARE.kids, Num(n), 1) && IfOk(env, BARE.kids, Num(n), 1);
    assert Check(env, Node(NO_KEYWORDS, BARE.kids), Num(n), 0);
  }

  lemma BareMeets(env: Env, n: real)
    requires env.maxDepth > 2
    ensures Meets(env, BARE, Num(n), 0)
  {
    hide WellTyped, Height, First, Branches, PrefixLength;
    BareShape();
  }
}
