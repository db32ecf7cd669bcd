/** Refreshing the model catalog of a provider: generations tell a refresh that it
    was superseded, and a publication lock keeps results from overtaking each other. */
module ModelsRefresh {
  import opened Options

  /** A registered provider, by identity: two objects may carry one id. */
  type Identity = nat

  // ---------------------------------------------------------------------------
  // The registry
  // ---------------------------------------------------------------------------

  /** What the registry knows of one provider id. Generation 0 means none yet. */
  datatype Entry = Entry(generation: nat, provider: Option<Identity>)

  class Registry {
    var providers: map<string, Identity>
    var generations: map<string, nat>

    function EntryOf(id: string): Entry
      reads this
    {
      Entry(if id in generations then generations[id] else 0, if id in providers then Some(providers[id]) else None)
    }

    constructor ()
      ensures forall id :: EntryOf(id) == Entry(0, None)
    {
      providers, generations := map[], map[];
    }

    method NextRefreshGeneration(id: string) returns (generation: nat)
      modifies this`generations
      ensures generation == old(EntryOf(id)).generation + 1
      ensures EntryOf(id) == old(EntryOf(id)).(generation := generation)
      ensures forall other :: other != id ==> EntryOf(other) == old(EntryOf(other))
    {
      generation := if id in generations then generations[id] + 1 else 1;
      generations := generations[id := generation];
    }

    predicate IsCurrentGeneration(id: string, generation: nat)
      reads this
    {
      id in generations && generations[id] == generation
    }

    /** Replacing or adding a provider supersedes every refresh under its id. */
    method SetProvider(id: string, provider: Identity)
      modifies this
      ensures EntryOf(id) == Entry(old(EntryOf(id)).generation + 1, Some(provider))
      ensures forall other :: other != id ==> EntryOf(other) == old(EntryOf(other))
    {
      var generation := NextRefreshGeneration(id);
      providers := providers[id := provider];
    }

    method DeleteProvider(id: string)
      modifies this
      ensures EntryOf(id) == Entry(old(EntryOf(id)).generation + 1, None)
      ensures forall other :: other != id ==> EntryOf(other) == old(EntryOf(other))
    {
      var generation := NextRefreshGeneration(id);
      providers := providers - {id};
    }

    method ClearProviders()
      modifies this
      ensures forall id ::
        EntryOf(id) == Entry(old(EntryOf(id)).generation + (if old(EntryOf(id)).provider.Some? then 1 else 0), None)
    {
      var left := providers.Keys;
      while left != {}
        invariant providers == old(providers) && left <= providers.Keys
        invariant forall id ::
          EntryOf(id).generation == old(EntryOf(id)).generation + (if id in providers && id !in left then 1 else 0)
        decreases |left|
      {
        var id :| id in left;
        var generation := NextRefreshGeneration(id);
        left := left - {id};
      }
      providers := map[];
    }

    /** A refresh starts only for the provider object that is registered now. */
    method BeginRefresh(id: string, provider: Identity) returns (generation: Option<nat>)
      modifies this`generations
      ensures generation.Some? <==> old(EntryOf(id)).provider == Some(provider)
      ensures EntryOf(id) ==
        if generation.Some? then old(EntryOf(id)).(generation := old(EntryOf(id)).generation + 1)
        else old(EntryOf(id))
      ensures generation.Some? ==> generation.value == EntryOf(id).generation
      ensures forall other :: other != id ==> EntryOf(other) == old(EntryOf(other))
    {
      if id !in providers || providers[id] != provider {
        return None;
      }
      var next := NextRefreshGeneration(id);
      generation := Some(next);
    }
  }

  // ---------------------------------------------------------------------------
  // All interleavings of refreshes under one id
  // ---------------------------------------------------------------------------

  /** A catalog, by the generation of the refresh that fetched it; 0 is what the
      store held before. */
  type Catalog = nat

  /** Where a refresh stands, between two of its steps. */
  datatype Pc =
    | WantCache
    | HoldCache
    | ReadStore
    | Restore(found: Catalog)
    | SetRestored(catalog: Catalog)
    | ReleaseCache
    | Fetch
    | WantPublish
    | HoldPublish
    | SetFetched
    | WriteStore
    | Recheck
    | DeleteEntry
    | ReleasePublish
    | Done

  datatype Refresh = Refresh(provider: Identity, generation: nat, pc: Pc)

  /** What refreshes share. `writer` is a change of the registry between its two
      halves; it excludes the start of refreshes. `published` lists the fetched
      catalogs in the order they were shown, `confirmed` those that were still
      current after they were stored, `superseded` those that saw themselves
      superseded then, and `faulty` notes a store operation that
      failed or a refresh dropped while it published. */
  datatype Shared = Shared(
    entry: Entry,
    writer: Option<Option<Identity>>,
    lock: Option<nat>,
    store: Option<Catalog>,
    dynamic: map<Identity, Catalog>,
    published: seq<Catalog>,
    confirmed: set<Catalog>,
    superseded: set<Catalog>,
    faulty: bool)

  datatype System = System(sh: Shared, tasks: seq<Refresh>)

  datatype Step =
    | Begin(provider: Identity)
    | Change(to: Option<Identity>)
    | Install
    | Go(k: nat, ok: bool)
    | Drop(k: nat)

  predicate Holds(pc: Pc) {
    pc.HoldCache? || pc.ReadStore? || pc.Restore? || pc.SetRestored? || pc.ReleaseCache?
    || pc.HoldPublish? || pc.SetFetched? || pc.WriteStore? || pc.Recheck? || pc.DeleteEntry? || pc.ReleasePublish?
  }

  predicate Enabled(s: System, step: Step) {
    match step
    case Begin(_) => s.sh.writer.None?
    case Change(_) => s.sh.writer.None?
    case Install => s.sh.writer.Some?
    case Go(k, _) => k < |s.tasks| && (s.tasks[k].pc.WantCache? || s.tasks[k].pc.WantPublish? ==> s.sh.lock.None?)
    case Drop(k) => k < |s.tasks|
  }

  predicate IsCurrent(sh: Shared, t: Refresh) { sh.entry.generation == t.generation }

  /** The next step of refresh `k`; `ok` is the answer of the store or the network. */
  function Move(sh: Shared, k: nat, t: Refresh, ok: bool): (Shared, Pc) {
    match t.pc
    case WantCache => (sh.(lock := Some(k)), HoldCache)
    case HoldCache => (sh, if IsCurrent(sh, t) then ReadStore else ReleaseCache)
    case ReadStore => (sh, if ok && sh.store.Some? then Restore(sh.store.value) else ReleaseCache)
    case Restore(found) => (sh, if IsCurrent(sh, t) then SetRestored(found) else ReleaseCache)
    case SetRestored(found) => (sh.(dynamic := sh.dynamic[t.provider := found]), ReleaseCache)
    case ReleaseCache => (sh.(lock := None), if IsCurrent(sh, t) then Fetch else Done)
    case Fetch => (sh, if ok then WantPublish else Done)
    case WantPublish => (sh.(lock := Some(k)), HoldPublish)
    case HoldPublish => (sh, if IsCurrent(sh, t) then SetFetched else ReleasePublish)
    case SetFetched =>
      (sh.(dynamic := sh.dynamic[t.provider := t.generation], published := sh.published + [t.generation]), WriteStore)
    case WriteStore =>
      (if ok then sh.(store := Some(t.generation)) else sh.(faulty := true), Recheck)
    case Recheck =>
      if IsCurrent(sh, t) then (sh.(confirmed := sh.confirmed + {t.generation}), ReleasePublish)
      else (sh.(superseded := sh.superseded + {t.generation}), DeleteEntry)
    case DeleteEntry => (if ok then sh.(store := None) else sh.(faulty := true), ReleasePublish)
    case ReleasePublish => (sh.(lock := None), Done)
    case Done => (sh, Done)
  }

  /** A refresh dropped by its caller lets go of the lock. */
  function Dropped(sh: Shared, pc: Pc): Shared {
    sh.(lock := if Holds(pc) then None else sh.lock, faulty := sh.faulty || MidPublish(pc))
  }

  /** Between the publication and the end of the last check. */
  predicate MidPublish(pc: Pc) { pc.WriteStore? || pc.Recheck? || pc.DeleteEntry? }

  function Next(s: System, step: Step): System
    requires Enabled(s, step)
  {
    match step
    case Begin(p) =>
      if s.sh.entry.provider != Some(p) then s
      else
        var g := s.sh.entry.generation + 1;
        System(s.sh.(entry := s.sh.entry.(generation := g)), s.tasks + [Refresh(p, g, WantCache)])
    case Change(to) =>
      s.(sh := s.sh.(entry := s.sh.entry.(generation := s.sh.entry.generation + 1), writer := Some(to)))
    case Install => s.(sh := s.sh.(entry := s.sh.entry.(provider := s.sh.writer.value), writer := None))
    case Go(k, ok) =>
      var (sh, pc) := Move(s.sh, k, s.tasks[k], ok);
      System(sh, s.tasks[k := s.tasks[k].(pc := pc)])
    case Drop(k) => System(Dropped(s.sh, s.tasks[k].pc), s.tasks[k := s.tasks[k].(pc := Done)])
  }

  // ---------------------------------------------------------------------------
  // Invariants
  // ---------------------------------------------------------------------------

  predicate Ascending(xs: seq<nat>) { forall i, j :: 0 <= i < j < |xs| ==> xs[i] < xs[j] }

  predicate Below(xs: seq<nat>, x: nat) { forall i :: 0 <= i < |xs| ==> xs[i] < x }

  predicate NotIn(xs: seq<nat>, x: nat) { forall i :: 0 <= i < |xs| ==> xs[i] != x }

  function Last(xs: seq<nat>): nat { if xs == [] then 0 else xs[|xs| - 1] }

  /** The refresh has not published yet. */
  predicate Unpublished(pc: Pc) { !MidPublish(pc) && !pc.ReleasePublish? && !pc.Done? }

  /** The refresh has not looked yet whether it is still current after its write. */
  predicate Unchecked(pc: Pc) { Unpublished(pc) || pc.WriteStore? || pc.Recheck? }

  ghost predicate TaskInv(sh: Shared, k: nat, t: Refresh) {
    && 0 < t.generation <= sh.entry.generation
    && (Holds(t.pc) <==> sh.lock == Some(k))
    && (Unpublished(t.pc) ==> NotIn(sh.published, t.generation))
    && (Unchecked(t.pc) ==> t.generation !in sh.confirmed && t.generation !in sh.superseded)
    && (IsCurrent(sh, t) ==> sh.entry.provider == Some(t.provider) && sh.writer.None?)
    && (t.pc.SetFetched? ==> Below(sh.published, t.generation))
    && (MidPublish(t.pc) ==> sh.published != [] && Last(sh.published) == t.generation)
    && (!sh.faulty ==>
          && (t.pc.Restore? ==> sh.store == Some(t.pc.found))
          && (t.pc.SetRestored? ==> sh.store == Some(t.pc.catalog))
          && (t.pc.Recheck? || t.pc.DeleteEntry? ==> sh.store == Some(t.generation)))
  }

  /** The store holds what was published last and confirmed, or what it held first. */
  ghost predicate SharedInv(sh: Shared, mid: bool) {
    && Ascending(sh.published)
    && (forall i :: 0 <= i < |sh.published| ==> 0 < sh.published[i] <= sh.entry.generation)
    && (forall g :: g in sh.confirmed || g in sh.superseded ==> 0 < g <= sh.entry.generation)
    && (forall g :: g in sh.confirmed ==> g !in sh.superseded)
    && (!sh.faulty ==>
          && (forall p :: p in sh.dynamic ==> sh.dynamic[p] <= Last(sh.published))
          && (!mid && sh.store.Some? ==>
                sh.store.value == Last(sh.published) && (sh.store.value > 0 ==> sh.store.value in sh.confirmed)))
  }

  predicate Mid(s: System) { s.sh.lock.Some? && s.sh.lock.value < |s.tasks| && MidPublish(s.tasks[s.sh.lock.value].pc) }

  ghost predicate Inv(s: System) {
    && (forall k :: 0 <= k < |s.tasks| ==> TaskInv(s.sh, k, s.tasks[k]))
    && (forall j, k :: 0 <= j < k < |s.tasks| ==> s.tasks[j].generation < s.tasks[k].generation)
    && (s.sh.lock.Some? ==> s.sh.lock.value < |s.tasks|)
    && SharedInv(s.sh, Mid(s))
  }

  lemma PublishPush(xs: seq<nat>, x: nat)
    requires Ascending(xs) && Below(xs, x)
    ensures Ascending(xs + [x]) && Last(xs + [x]) == x
    ensures forall y :: NotIn(xs, y) && x != y ==> NotIn(xs + [x], y)
    ensures Last(xs) <= x
  {
  }

  /** A generation that is current and not published is above all published ones. */
  lemma CurrentIsAbove(sh: Shared, mid: bool, t: Refresh)
    requires SharedInv(sh, mid) && IsCurrent(sh, t) && NotIn(sh.published, t.generation)
    ensures Below(sh.published, t.generation)
  {
  }

  /** What the moving task knows. */
  lemma MoveKeepsOwn(sh: Shared, k: nat, t: Refresh, mid: bool, ok: bool)
    requires TaskInv(sh, k, t) && SharedInv(sh, mid) && (t.pc.WantCache? || t.pc.WantPublish? ==> sh.lock.None?)
    ensures var (sh', pc) := Move(sh, k, t, ok); TaskInv(sh', k, t.(pc := pc))
  {
    hide SharedInv, Ascending, Last, NotIn, Below;
    if t.pc.HoldPublish? && IsCurrent(sh, t) {
      CurrentIsAbove(sh, mid, t);
    }
    if t.pc.SetFetched? {
      Sorted(sh, mid);
      PublishPush(sh.published, t.generation);
    }
  }

  lemma Sorted(sh: Shared, mid: bool)
    requires SharedInv(sh, mid)
    ensures Ascending(sh.published)
  {
  }

  /** What the other tasks know. */
  lemma MoveKeepsOthers(sh: Shared, k: nat, t: Refresh, mid: bool, ok: bool, j: nat, u: Refresh)
    requires TaskInv(sh, k, t) && SharedInv(sh, mid) && (t.pc.WantCache? || t.pc.WantPublish? ==> sh.lock.None?)
    requires TaskInv(sh, j, u) && j != k && u.generation != t.generation
    ensures TaskInv(Move(sh, k, t, ok).0, j, u)
  {
    hide SharedInv, Ascending, Last, NotIn, Below;
    if t.pc.SetFetched? {
      Sorted(sh, mid);
      PublishPush(sh.published, t.generation);
    }
  }

  /** What is shared. */
  lemma MoveKeepsShared(sh: Shared, k: nat, t: Refresh, mid: bool, ok: bool)
    requires TaskInv(sh, k, t) && SharedInv(sh, mid) && (t.pc.WantCache? || t.pc.WantPublish? ==> sh.lock.None? && !mid)
    requires Holds(t.pc) ==> mid == MidPublish(t.pc)
    ensures var (sh', pc) := Move(sh, k, t, ok);
      SharedInv(sh', if Holds(t.pc) then MidPublish(pc) else mid)
  {
    hide NotIn;
    if t.pc.SetFetched? {
      PublishPush(sh.published, t.generation);
    }
  }

  lemma GoKeepsInv(s: System, k: nat, ok: bool)
    requires Inv(s) && Enabled(s, Go(k, ok))
    ensures Inv(Next(s, Go(k, ok)))
  {
    hide Move, TaskInv, SharedInv;
    var t, s' := s.tasks[k], Next(s, Go(k, ok));
    HolderIs(s, k);
    LockAfter(s.sh, k, t, ok);
    MoveKeepsOwn(s.sh, k, t, Mid(s), ok);
    MoveKeepsShared(s.sh, k, t, Mid(s), ok);
    forall j | 0 <= j < |s.tasks|
      ensures TaskInv(s'.sh, j, s'.tasks[j])
    {
      if j != k {
        MoveKeepsOthers(s.sh, k, t, Mid(s), ok, j, s.tasks[j]);
      }
    }
  }

  lemma HolderIs(s: System, k: nat)
    requires Inv(s) && k < |s.tasks|
    ensures Holds(s.tasks[k].pc) <==> s.sh.lock == Some(k)
  {
    assert TaskInv(s.sh, k, s.tasks[k]);
  }

  lemma LockAfter(sh: Shared, k: nat, t: Refresh, ok: bool)
    ensures var (sh', pc) := Move(sh, k, t, ok);
      && sh'.lock == (if t.pc.WantCache? || t.pc.WantPublish? then Some(k)
                      else if t.pc.ReleaseCache? || t.pc.ReleasePublish? then None else sh.lock)
      && (!Holds(t.pc) || t.pc.ReleaseCache? || t.pc.ReleasePublish? ==> !MidPublish(pc))
      && sh'.entry == sh.entry
  {
  }

  lemma DropKeepsInv(s: System, k: nat)
    requires Inv(s) && k < |s.tasks|
    ensures Inv(Next(s, Drop(k)))
  {
    var s' := Next(s, Drop(k));
    HolderIs(s, k);
    forall j | 0 <= j < |s.tasks|
      ensures TaskInv(s'.sh, j, s'.tasks[j])
    {
      assert TaskInv(s.sh, j, s.tasks[j]) && TaskInv(s.sh, k, s.tasks[k]);
    }
  }

  /** A new generation makes every running refresh a superseded one. */
  lemma BumpKeepsInv(s: System, step: Step)
    requires Inv(s) && Enabled(s, step) && (step.Begin? || step.Change? || step.Install?)
    ensures Inv(Next(s, step))
  {
    var s' := Next(s, step);
    forall j | 0 <= j < |s'.tasks|
      ensures TaskInv(s'.sh, j, s'.tasks[j])
    {
      if j < |s.tasks| {
        assert TaskInv(s.sh, j, s.tasks[j]);
      }
    }
    forall j, k | 0 <= j < k < |s'.tasks|
      ensures s'.tasks[j].generation < s'.tasks[k].generation
    {
      assert TaskInv(s.sh, j, s.tasks[j]);
    }
  }

  lemma NextKeepsInv(s: System, step: Step)
    requires Inv(s) && Enabled(s, step)
    ensures Inv(Next(s, step))
  {
    hide Inv;
    match step
    case Go(k, ok) => GoKeepsInv(s, k, ok);
    case Drop(k) => DropKeepsInv(s, k);
    case Begin(_) => BumpKeepsInv(s, step);
    case Change(_) => BumpKeepsInv(s, step);
    case Install => BumpKeepsInv(s, step);
  }

  predicate Runs(s: System, steps: seq<Step>)
    decreases |steps|
  {
    steps == [] || (Enabled(s, steps[0]) && Runs(Next(s, steps[0]), steps[1..]))
  }

  function Final(s: System, steps: seq<Step>): System
    requires Runs(s, steps)
    decreases |steps|
  {
    if steps == [] then s else Final(Next(s, steps[0]), steps[1..])
  }

  lemma {:induction false} RunKeepsInv(s: System, steps: seq<Step>)
    requires Inv(s) && Runs(s, steps)
    ensures Inv(Final(s, steps))
    decreases |steps|
  {
    if steps != [] {
      NextKeepsInv(s, steps[0]);
      RunKeepsInv(Next(s, steps[0]), steps[1..]);
    }
  }

  /** No refresh yet; the store may hold a catalog from before. */
  function Initial(provider: Option<Identity>, stored: bool): System {
    System(Shared(Entry(0, provider), None, None, if stored then Some(0) else None, map[], [], {}, {}, false), [])
  }

  /** Over all interleavings fetched catalogs are published in strictly increasing
      order of their generations; a refresh that is current belongs to the provider
      that is registered; and with a store that works, once no publication is
      under way, what is stored is the catalog published last, still current after
      it was stored, and no provider shows a newer one. */
  lemma RefreshNeverGoesBackwards(provider: Option<Identity>, stored: bool, steps: seq<Step>)
    requires Runs(Initial(provider, stored), steps)
    ensures var s := Final(Initial(provider, stored), steps);
      && Ascending(s.sh.published)
      && (forall k :: 0 <= k < |s.tasks| && IsCurrent(s.sh, s.tasks[k]) ==>
            s.sh.entry.provider == Some(s.tasks[k].provider))
      && (!s.sh.faulty && s.sh.lock.None? && s.sh.store.Some? ==>
            s.sh.store.value == Last(s.sh.published) && (s.sh.store.value > 0 ==> s.sh.store.value in s.sh.confirmed))
      && (!s.sh.faulty ==> forall p :: p in s.sh.dynamic ==> s.sh.dynamic[p] <= Last(s.sh.published))
  {
    RunKeepsInv(Initial(provider, stored), steps);
    var s := Final(Initial(provider, stored), steps);
    forall k | 0 <= k < |s.tasks| && IsCurrent(s.sh, s.tasks[k])
      ensures s.sh.entry.provider == Some(s.tasks[k].provider)
    {
      assert TaskInv(s.sh, k, s.tasks[k]);
    }
  }

  /** Over all interleavings, with a store that works, a publication that sees
      itself superseded after its write leaves no entry: whenever no refresh holds
      the lock, its catalog is not what is stored, and as long as nothing is
      published after it, nothing is stored at all. */
  lemma SupersededLeavesNothing(provider: Option<Identity>, stored: bool, steps: seq<Step>, generation: Catalog)
    requires Runs(Initial(provider, stored), steps)
    requires generation in Final(Initial(provider, stored), steps).sh.superseded
    ensures var sh := Final(Initial(provider, stored), steps).sh;
      !sh.faulty && sh.lock.None? ==>
        sh.store != Some(generation) && (Last(sh.published) == generation ==> sh.store.None?)
  {
    RunKeepsInv(Initial(provider, stored), steps);
  }

  /** With a store that works no provider's models are replaced by older ones. */
  lemma ModelsNeverGoBack(s: System, step: Step, p: Identity)
    requires Inv(s) && Enabled(s, step) && !s.sh.faulty && p in s.sh.dynamic
    ensures var s' := Next(s, step); p in s'.sh.dynamic && s.sh.dynamic[p] <= s'.sh.dynamic[p]
  {
    if step.Go? {
      var t := s.tasks[step.k];
      assert TaskInv(s.sh, step.k, t);
      HolderIs(s, step.k);
      if t.pc.SetFetched? {
        PublishPush(s.sh.published, t.generation);
      }
    }
  }
}
