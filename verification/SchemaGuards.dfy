/** Schemas with references: compiling comes to an end although references may be
    cyclic, and checking is kept finite by a depth limit and a stack of the
    references that are being followed. */
module SchemaGuards {
  import opened Depths
  import opened Options

  // ---------------------------------------------------------------------------
  // Compiling
  // ---------------------------------------------------------------------------

  /** A schema, as far as its references and its nesting go. */
  datatype Shape = Shape(id: nat, ref: Option<string>, kids: seq<Shape>)

  /** The closure of a schema. A reference defines a slot, or enters the slot of the
      same reference that is being compiled around it. */
  datatype Code = Code(id: nat, ref: RefCode, kids: seq<Code>)

  datatype RefCode = NoRef | Unresolved | Enter(slot: nat) | Define(slot: nat, body: Code)

  /** What a reference string resolves to. */
  type Definitions = map<string, Shape>

  type Scope = map<string, nat>

  function Compile(defs: Definitions, s: Shape, scope: Scope, next: nat): (Code, nat)
    decreases defs.Keys - scope.Keys, s, 1
  {
    var (ref, next1) := CompileRef(defs, s, scope, next);
    var (kids, next2) := CompileKids(defs, s.kids, scope, next1);
    (Code(s.id, ref, kids), next2)
  }

  function CompileRef(defs: Definitions, s: Shape, scope: Scope, next: nat): (RefCode, nat)
    decreases defs.Keys - scope.Keys, s, 0
  {
    match s.ref
    case None => (NoRef, next)
    case Some(r) =>
      if r in scope then (Enter(scope[r]), next)
      else if r in defs then
        assert r in defs.Keys - scope.Keys && r !in defs.Keys - scope[r := next].Keys;
        var (body, next1) := Compile(defs, defs[r], scope[r := next], next + 1);
        (Define(next, body), next1)
      else (Unresolved, next)
  }

  function CompileKids(defs: Definitions, kids: seq<Shape>, scope: Scope, next: nat): (seq<Code>, nat)
    decreases defs.Keys - scope.Keys, kids
  {
    if kids == [] then ([], next)
    else
      var (first, next1) := Compile(defs, kids[0], scope, next);
      var (rest, next2) := CompileKids(defs, kids[1..], scope, next1);
      ([first] + rest, next2)
  }

  /** The closures that compiling puts into the slots. */
  function SlotsOf(c: Code): map<nat, Code> { RefSlots(c.ref) + KidsSlots(c.kids) }

  function RefSlots(r: RefCode): map<nat, Code> {
    match r
    case Define(slot, body) => SlotsOf(body)[slot := body]
    case _ => map[]
  }

  function KidsSlots(kids: seq<Code>): map<nat, Code> {
    if kids == [] then map[] else SlotsOf(kids[0]) + KidsSlots(kids[1..])
  }

  class CompileState {
    var nextSlotId: nat
    var compilingRefs: Scope
    var slots: map<nat, Code>

    constructor ()
      ensures nextSlotId == 1 && compilingRefs == map[] && slots == map[]
    {
      nextSlotId, compilingRefs, slots := 1, map[], map[];
    }

    /** Ends for every schema, cyclic or not, leaves the references that are being
        compiled as they were, and sets the slots of the code. */
    method CompileNode(defs: Definitions, s: Shape) returns (code: Code)
      modifies this
      ensures compilingRefs == old(compilingRefs) && slots == old(slots) + SlotsOf(code)
      ensures (code, nextSlotId) == Compile(defs, s, old(compilingRefs), old(nextSlotId))
      decreases defs.Keys - compilingRefs.Keys, s, |s.kids| + 2
    {
      var ref := CompileReference(defs, s);
      hide RefSlots, KidsSlots, CompileRef, CompileKids;
      var kids := CompileAll(defs, s, 0);
      assert s.kids[0..] == s.kids;
      code := Code(s.id, ref, kids);
      MapsAssociate(old(slots), RefSlots(ref), KidsSlots(kids));
    }

    method CompileReference(defs: Definitions, s: Shape) returns (ref: RefCode)
      modifies this
      ensures compilingRefs == old(compilingRefs) && slots == old(slots) + RefSlots(ref)
      ensures (ref, nextSlotId) == CompileRef(defs, s, old(compilingRefs), old(nextSlotId))
      decreases defs.Keys - compilingRefs.Keys, s, |s.kids| + 1
    {
      hide Compile, SlotsOf;
      ref := NoRef;
      if s.ref.Some? {
        var r := s.ref.value;
        if r in compilingRefs {
          ref := Enter(compilingRefs[r]);
        } else if r in defs {
          var slot := nextSlotId;
          nextSlotId := nextSlotId + 1;
          assert r in defs.Keys - compilingRefs.Keys && r !in defs.Keys - compilingRefs[r := slot].Keys;
          compilingRefs := compilingRefs[r := slot];
          var body := CompileNode(defs, defs[r]);
          slots := slots[slot := body];
          compilingRefs := compilingRefs - {r};
          assert compilingRefs == old(compilingRefs);
          ref := Define(slot, body);
          assert slots == old(slots) + SlotsOf(body)[slot := body];
        } else {
          ref := Unresolved;
        }
      }
    }

    method CompileAll(defs: Definitions, s: Shape, i: nat) returns (kids: seq<Code>)
      requires i <= |s.kids|
      modifies this
      ensures compilingRefs == old(compilingRefs) && slots == old(slots) + KidsSlots(kids)
      ensures (kids, nextSlotId) == CompileKids(defs, s.kids[i..], old(compilingRefs), old(nextSlotId))
      decreases defs.Keys - compilingRefs.Keys, s, |s.kids| - i
    {
      hide Compile, SlotsOf;
      kids := [];
      if i < |s.kids| {
        assert s.kids[i..][0] == s.kids[i] && s.kids[i..][1..] == s.kids[i + 1..];
        var first := CompileNode(defs, s.kids[i]);
        var rest := CompileAll(defs, s, i + 1);
        kids := [first] + rest;
        assert kids[1..] == rest;
        MapsAssociate(old(slots), SlotsOf(first), KidsSlots(rest));
      }
    }
  }

  lemma MapsAssociate(a: map<nat, Code>, b: map<nat, Code>, c: map<nat, Code>)
    ensures a + b + c == a + (b + c)
  {
  }

  // ---------------------------------------------------------------------------
  // Slots are unique and closed
  // ---------------------------------------------------------------------------

  /** The slots a code defines lie between two bounds, each once. */
  ghost predicate SlotsIn(c: Code, from: nat, to: nat) {
    exists mid :: from <= mid <= to && RefSlotsIn(c.ref, from, mid) && KidsSlotsIn(c.kids, mid, to)
  }

  ghost predicate RefSlotsIn(r: RefCode, from: nat, to: nat) {
    match r
    case Define(slot, body) => from == slot < to && SlotsIn(body, slot + 1, to)
    case _ => from == to
  }

  ghost predicate KidsSlotsIn(kids: seq<Code>, from: nat, to: nat) {
    if kids == [] then from == to
    else exists mid :: from <= mid <= to && SlotsIn(kids[0], from, mid) && KidsSlotsIn(kids[1..], mid, to)
  }

  /** Every slot that is entered is defined around the place. */
  predicate Closed(c: Code, open: set<nat>) { RefClosed(c.ref, open) && KidsClosed(c.kids, open) }

  predicate RefClosed(r: RefCode, open: set<nat>) {
    match r
    case Define(slot, body) => Closed(body, open + {slot})
    case Enter(slot) => slot in open
    case _ => true
  }

  predicate KidsClosed(kids: seq<Code>, open: set<nat>) {
    kids == [] || (Closed(kids[0], open) && KidsClosed(kids[1..], open))
  }

  /** Compiling numbers its slots one after the other and leaves no loose end. */
  lemma {:induction false} CompileIsClosed(defs: Definitions, s: Shape, scope: Scope, next: nat, open: set<nat>)
    requires scope.Values <= open
    ensures var (code, next') := Compile(defs, s, scope, next);
      next <= next' && SlotsIn(code, next, next') && Closed(code, open)
    decreases defs.Keys - scope.Keys, s, 1
  {
    CompileRefIsClosed(defs, s, scope, next, open);
    CompileKidsAreClosed(defs, s.kids, scope, CompileRef(defs, s, scope, next).1, open);
  }

  lemma {:induction false} CompileRefIsClosed(defs: Definitions, s: Shape, scope: Scope, next: nat, open: set<nat>)
    requires scope.Values <= open
    ensures var (ref, next') := CompileRef(defs, s, scope, next);
      next <= next' && RefSlotsIn(ref, next, next') && RefClosed(ref, open)
    decreases defs.Keys - scope.Keys, s, 0
  {
    if s.ref.Some? {
      var r := s.ref.value;
      if r in scope {
        assert scope[r] in scope.Values;
      } else if r in defs {
        assert r in defs.Keys - scope.Keys && r !in defs.Keys - scope[r := next].Keys;
        assert scope[r := next].Values <= open + {next};
        CompileIsClosed(defs, defs[r], scope[r := next], next + 1, open + {next});
      }
    }
  }

  lemma {:induction false} CompileKidsAreClosed(
    defs: Definitions, kids: seq<Shape>, scope: Scope, next: nat, open: set<nat>)
    requires scope.Values <= open
    ensures var (codes, next') := CompileKids(defs, kids, scope, next);
      next <= next' && KidsSlotsIn(codes, next, next') && KidsClosed(codes, open) && |codes| == |kids|
    decreases defs.Keys - scope.Keys, kids
  {
    if kids != [] {
      CompileIsClosed(defs, kids[0], scope, next, open);
      var (first, next1) := Compile(defs, kids[0], scope, next);
      CompileKidsAreClosed(defs, kids[1..], scope, next1, open);
      var (rest, next2) := CompileKids(defs, kids[1..], scope, next1);
      assert ([first] + rest)[1..] == rest;
    }
  }

  // ---------------------------------------------------------------------------
  // Every slot is set to its own closure
  // ---------------------------------------------------------------------------

  /** Whatever slot a code or a body in it enters is set, and a slot that is defined
      is set to the closure compiled for it. */
  predicate Installed(slots: map<nat, Code>, c: Code) { RefInstalled(slots, c.ref) && KidsInstalled(slots, c.kids) }

  predicate RefInstalled(slots: map<nat, Code>, r: RefCode) {
    match r
    case Define(slot, body) => slot in slots && slots[slot] == body && Installed(slots, body)
    case Enter(slot) => slot in slots
    case _ => true
  }

  predicate KidsInstalled(slots: map<nat, Code>, kids: seq<Code>) {
    kids == [] || (Installed(slots, kids[0]) && KidsInstalled(slots, kids[1..]))
  }

  lemma {:induction false} InstalledAt(slots: map<nat, Code>, kids: seq<Code>, i: nat)
    requires KidsInstalled(slots, kids) && i < |kids|
    ensures Installed(slots, kids[i])
  {
    if i > 0 {
      InstalledAt(slots, kids[1..], i - 1);
    }
  }

  /** The slots are closed: following any of them stays within them. */
  ghost predicate AllInstalled(slots: map<nat, Code>) { forall slot :: slot in slots ==> Installed(slots, slots[slot]) }

  ghost predicate Within(part: map<nat, Code>, slots: map<nat, Code>) {
    forall slot :: slot in part ==> slot in slots && slots[slot] == part[slot]
  }

  ghost predicate Between(part: map<nat, Code>, from: nat, to: nat) {
    forall slot :: slot in part ==> from <= slot < to
  }

  lemma {:induction false} SlotsBetween(c: Code, from: nat, to: nat)
    requires SlotsIn(c, from, to)
    ensures from <= to && Between(SlotsOf(c), from, to)
    decreases c, 1
  {
    var mid :| from <= mid <= to && RefSlotsIn(c.ref, from, mid) && KidsSlotsIn(c.kids, mid, to);
    RefSlotsBetween(c.ref, from, mid);
    KidsSlotsBetween(c.kids, mid, to);
  }

  lemma {:induction false} RefSlotsBetween(r: RefCode, from: nat, to: nat)
    requires RefSlotsIn(r, from, to)
    ensures from <= to && Between(RefSlots(r), from, to)
    decreases r, 0
  {
    if r.Define? {
      SlotsBetween(r.body, r.slot + 1, to);
    }
  }

  lemma {:induction false} KidsSlotsBetween(kids: seq<Code>, from: nat, to: nat)
    requires KidsSlotsIn(kids, from, to)
    ensures from <= to && Between(KidsSlots(kids), from, to)
    decreases kids
  {
    if kids != [] {
      var mid :| from <= mid <= to && SlotsIn(kids[0], from, mid) && KidsSlotsIn(kids[1..], mid, to);
      SlotsBetween(kids[0], from, mid);
      KidsSlotsBetween(kids[1..], mid, to);
    }
  }

  /** A code whose slots are numbered apart and closed is installed wherever they
      are set, and so is every closure in them. */
  lemma {:induction false} ClosedIsInstalled(c: Code, from: nat, to: nat, open: set<nat>, slots: map<nat, Code>)
    requires SlotsIn(c, from, to) && Closed(c, open) && open <= slots.Keys && Within(SlotsOf(c), slots)
    ensures Installed(slots, c)
    ensures forall slot :: slot in SlotsOf(c) ==> Installed(slots, slots[slot])
    decreases c, 1
  {
    hide Installed, SlotsIn, Closed;
    assert SlotsIn(c, from, to) && Closed(c, open);
    var mid := SplitSlots(c, from, to, open);
    RefSlotsBetween(c.ref, from, mid);
    KidsSlotsBetween(c.kids, mid, to);
    RefIsInstalled(c.ref, from, mid, open, slots);
    KidsAreInstalled(c.kids, mid, to, open, slots);
    Together(slots, c);
  }

  lemma SplitSlots(c: Code, from: nat, to: nat, open: set<nat>) returns (mid: nat)
    requires SlotsIn(c, from, to) && Closed(c, open)
    ensures RefSlotsIn(c.ref, from, mid) && KidsSlotsIn(c.kids, mid, to)
    ensures RefClosed(c.ref, open) && KidsClosed(c.kids, open)
  {
    mid :| from <= mid <= to && RefSlotsIn(c.ref, from, mid) && KidsSlotsIn(c.kids, mid, to);
  }

  lemma Together(slots: map<nat, Code>, c: Code)
    requires RefInstalled(slots, c.ref) && KidsInstalled(slots, c.kids)
    ensures Installed(slots, c)
  {
  }

  lemma {:induction false} RefIsInstalled(r: RefCode, from: nat, to: nat, open: set<nat>, slots: map<nat, Code>)
    requires RefSlotsIn(r, from, to) && RefClosed(r, open) && open <= slots.Keys && Within(RefSlots(r), slots)
    ensures RefInstalled(slots, r)
    ensures forall slot :: slot in RefSlots(r) ==> Installed(slots, slots[slot])
    decreases r, 0
  {
    if r.Define? {
      SlotsBetween(r.body, r.slot + 1, to);
      ClosedIsInstalled(r.body, r.slot + 1, to, open + {r.slot}, slots);
    }
  }

  lemma {:induction false} KidsAreInstalled(
    kids: seq<Code>, from: nat, to: nat, open: set<nat>, slots: map<nat, Code>)
    requires KidsSlotsIn(kids, from, to) && KidsClosed(kids, open) && open <= slots.Keys
    requires Within(KidsSlots(kids), slots)
    ensures KidsInstalled(slots, kids)
    ensures forall slot :: slot in KidsSlots(kids) ==> Installed(slots, slots[slot])
    decreases kids
  {
    hide Installed, SlotsIn, Closed;
    if kids != [] {
      var mid :| from <= mid <= to && SlotsIn(kids[0], from, mid) && KidsSlotsIn(kids[1..], mid, to);
      SlotsBetween(kids[0], from, mid);
      KidsSlotsBetween(kids[1..], mid, to);
      ClosedIsInstalled(kids[0], from, mid, open, slots);
      KidsAreInstalled(kids[1..], mid, to, open, slots);
    }
  }

  /** Compiling sets every slot that checking can ever enter, and each to the closure
      of its own reference, for every schema, cyclic or not. */
  lemma CompileInstalls(defs: Definitions, s: Shape, next: nat)
    ensures var code := Compile(defs, s, map[], next).0;
      Installed(SlotsOf(code), code) && AllInstalled(SlotsOf(code))
  {
    var (code, next') := Compile(defs, s, map[], next);
    CompileIsClosed(defs, s, map[], next, {});
    ClosedIsInstalled(code, next, next', {}, SlotsOf(code));
  }

  // ---------------------------------------------------------------------------
  // Checking
  // ---------------------------------------------------------------------------

  /** The address of a value: two equal values in two places are two. */
  type Address = nat

  /** What the keywords of a schema do: ask the closure of a nested schema about a
      part of the value and go on by the answer, or decide. */
  datatype Plan = Ask(kid: nat, on: Address, yes: Plan, no: Plan) | Decide(ok: bool)

  /** The keywords of a schema by its id, on a value. */
  datatype Env = Env(plan: (nat, Address) -> Plan, maxDepth: nat)

  /** A reference that is being followed: whose, which slot, on which value. */
  type Frame = (nat, nat, Address)

  /** What a closure answers under the guards. A slot that is entered is always set. */
  ghost predicate Eval(
    env: Env, validator: nat, slots: map<nat, Code>, c: Code, v: Address, depth: nat, stack: seq<Frame>)
    requires AllInstalled(slots) && Installed(slots, c)
    decreases Room(Limit(env.maxDepth), depth), 0
  {
    && depth < Limit(env.maxDepth)
    && EvalRef(env, validator, slots, c.ref, v, depth + 1, stack)
    && EvalPlan(env, validator, slots, c, env.plan(c.id, v), depth + 1, stack)
  }

  ghost predicate EvalRef(
    env: Env, validator: nat, slots: map<nat, Code>, r: RefCode, v: Address, depth: nat, stack: seq<Frame>)
    requires AllInstalled(slots) && RefInstalled(slots, r)
    decreases Room(Limit(env.maxDepth), depth), 2
  {
    match r
    case NoRef => true
    case Unresolved => false
    case Enter(slot) => EvalSlot(env, validator, slots, slot, v, depth, stack)
    case Define(slot, _) => EvalSlot(env, validator, slots, slot, v, depth, stack)
  }

  ghost predicate EvalSlot(
    env: Env, validator: nat, slots: map<nat, Code>, slot: nat, v: Address, depth: nat, stack: seq<Frame>)
    requires AllInstalled(slots) && slot in slots
    decreases Room(Limit(env.maxDepth), depth), 1
  {
    && |stack| < env.maxDepth && (validator, slot, v) !in stack
    && Eval(env, validator, slots, slots[slot], v, depth, stack + [(validator, slot, v)])
  }

  ghost predicate EvalPlan(
    env: Env, validator: nat, slots: map<nat, Code>, c: Code, plan: Plan, depth: nat, stack: seq<Frame>)
    requires AllInstalled(slots) && Installed(slots, c)
    decreases Room(Limit(env.maxDepth), depth), 1, plan
  {
    match plan
    case Decide(ok) => ok
    case Ask(kid, on, yes, no) =>
      kid < |c.kids| &&
      (InstalledAt(slots, c.kids, kid);
       EvalPlan(
         env, validator, slots, c,
         if Eval(env, validator, slots, c.kids[kid], on, depth, stack) then yes else no, depth, stack))
  }

  predicate NoRepeats(stack: seq<Frame>) { forall i, j :: 0 <= i < j < |stack| ==> stack[i] != stack[j] }

  /** The state of the running thread, as a check finds it. */
  class CheckState {
    var callDepth: nat
    var refStack: seq<Frame>

    constructor ()
      ensures callDepth == 0 && refStack == []
    {
      callDepth, refStack := 0, [];
    }

    /** Neither the calls nor the references that are being followed go beyond their
        limits, and no reference is followed twice at once on one value. Every check
        finds and leaves the state like this, however deep it is nested. */
    ghost predicate Guarded(env: Env)
      reads this
    {
      callDepth <= Limit(env.maxDepth) && |refStack| <= env.maxDepth && NoRepeats(refStack)
    }

    /** A closure enters one level and leaves it again, whatever the outcome. */
    method CheckNode(env: Env, validator: nat, slots: map<nat, Code>, c: Code, v: Address) returns (ok: bool)
      requires Guarded(env) && AllInstalled(slots) && Installed(slots, c)
      modifies this
      ensures Guarded(env) && callDepth == old(callDepth) && refStack == old(refStack)
      ensures ok == Eval(env, validator, slots, c, v, old(callDepth), old(refStack))
      decreases Room(Limit(env.maxDepth), callDepth), 0
    {
      if callDepth >= Limit(env.maxDepth) {
        return false;
      }
      callDepth := callDepth + 1;
      ok := CheckRef(env, validator, slots, c.ref, v);
      if ok {
        ok := RunPlan(env, validator, slots, c, v);
      }
      callDepth := callDepth - 1;
    }

    method CheckRef(env: Env, validator: nat, slots: map<nat, Code>, r: RefCode, v: Address) returns (ok: bool)
      requires Guarded(env) && AllInstalled(slots) && RefInstalled(slots, r)
      modifies this
      ensures Guarded(env) && callDepth == old(callDepth) && refStack == old(refStack)
      ensures ok == EvalRef(env, validator, slots, r, v, old(callDepth), old(refStack))
      decreases Room(Limit(env.maxDepth), callDepth), 2
    {
      match r
      case NoRef => ok := true;
      case Unresolved => ok := false;
      case Enter(slot) => ok := CheckSlot(env, validator, slots, slot, v);
      case Define(slot, _) => ok := CheckSlot(env, validator, slots, slot, v);
    }

    /** A reference is followed unless the stack is full or it is being followed on
        this very value; its closure is set. */
    method CheckSlot(env: Env, validator: nat, slots: map<nat, Code>, slot: nat, v: Address) returns (ok: bool)
      requires Guarded(env) && AllInstalled(slots) && slot in slots
      modifies this
      ensures Guarded(env) && callDepth == old(callDepth) && refStack == old(refStack)
      ensures ok == EvalSlot(env, validator, slots, slot, v, old(callDepth), old(refStack))
      decreases Room(Limit(env.maxDepth), callDepth), 1
    {
      if |refStack| >= env.maxDepth || (validator, slot, v) in refStack {
        return false;
      }
      refStack := refStack + [(validator, slot, v)];
      ok := CheckNode(env, validator, slots, slots[slot], v);
      refStack := refStack[..|refStack| - 1];
      assert refStack == old(refStack);
    }

    method RunPlan(env: Env, validator: nat, slots: map<nat, Code>, c: Code, v: Address) returns (ok: bool)
      requires Guarded(env) && AllInstalled(slots) && Installed(slots, c)
      modifies this
      ensures Guarded(env) && callDepth == old(callDepth) && refStack == old(refStack)
      ensures ok == EvalPlan(env, validator, slots, c, env.plan(c.id, v), old(callDepth), old(refStack))
      decreases Room(Limit(env.maxDepth), callDepth), 1
    {
      var plan := env.plan(c.id, v);
      while plan.Ask? && plan.kid < |c.kids|
        invariant Guarded(env) && callDepth == old(callDepth) && refStack == old(refStack)
        invariant EvalPlan(env, validator, slots, c, plan, callDepth, refStack)
          == EvalPlan(env, validator, slots, c, env.plan(c.id, v), callDepth, refStack)
        decreases plan
      {
        InstalledAt(slots, c.kids, plan.kid);
        var answer := CheckNode(env, validator, slots, c.kids[plan.kid], plan.on);
        plan := if answer then plan.yes else plan.no;
      }
      ok := plan.Decide? && plan.ok;
    }
  }

  /** Compiling and then checking: ends for every schema and every value, never
      enters a slot that is not set, and leaves the thread as it was. */
  method CompileAndCheck(defs: Definitions, s: Shape, env: Env, validator: nat, v: Address, thread: CheckState)
    returns (ok: bool)
    requires thread.Guarded(env)
    modifies thread
    ensures thread.callDepth == old(thread.callDepth) && thread.refStack == old(thread.refStack)
    ensures var code := Compile(defs, s, map[], 1).0;
      && Installed(SlotsOf(code), code) && AllInstalled(SlotsOf(code))
      && ok == Eval(env, validator, SlotsOf(code), code, v, old(thread.callDepth), old(thread.refStack))
  {
    var state := new CompileState();
    var code := state.CompileNode(defs, s);
    CompileInstalls(defs, s, 1);
    assert state.slots == SlotsOf(code);
    ok := thread.CheckNode(env, validator, state.slots, code, v);
  }

  /** A schema that is nothing but a reference to itself compiles, and rejects
      every value instead of looking at it forever. */
  lemma SelfReferenceRejects(env: Env, validator: nat, v: Address, root: string)
    ensures var s := Shape(0, Some(root), []);
      var code := Compile(map[root := s], s, map[], 1).0;
      && code == Code(0, Define(1, Code(0, Enter(1), [])), [])
      && Installed(SlotsOf(code), code) && AllInstalled(SlotsOf(code))
      && !Eval(env, validator, SlotsOf(code), code, v, 0, [])
  {
    var s := Shape(0, Some(root), []);
    var defs: Definitions := map[root := s];
    var scope: Scope := map[root := 1];
    assert CompileRef(defs, s, scope, 2) == (Enter(1), 2);
    assert Compile(defs, s, scope, 2) == (Code(0, Enter(1), []), 2);
    assert map[][root := 1] == scope;
    assert CompileRef(defs, s, map[], 1) == (Define(1, Code(0, Enter(1), [])), 2);
    CompileInstalls(defs, s, 1);
    var body := Code(0, Enter(1), []);
    var code := Code(0, Define(1, body), []);
    var slots := SlotsOf(code);
    assert slots[1] == body;
    assert [] + [(validator, 1, v)] == [(validator, 1, v)];
    assert !EvalRef(env, validator, slots, Enter(1), v, 2, [(validator, 1, v)]);
    assert !Eval(env, validator, slots, body, v, 1, [(validator, 1, v)]);
    assert !EvalSlot(env, validator, slots, 1, v, 1, []);
  }
}
