/** Replaying the tool declarations of a transcript, and the two ways of folding
    system messages for a provider that does not take them mid-conversation. */
module TranscriptTools {
  import opened Options
  import opened Seqs
  import opened Messages

  // ---------------------------------------------------------------------------
  // The tool list as a finite map with an order
  // ---------------------------------------------------------------------------

  predicate HasName(ts: seq<Tool>, name: string) { exists i :: 0 <= i < |ts| && ts[i].name == name }

  predicate Distinct(ts: seq<Tool>) { forall i, j :: 0 <= i < j < |ts| ==> ts[i].name != ts[j].name }

  /** The declaration under a name; in a list with repetitions the last one. */
  function Lookup(ts: seq<Tool>, name: string): (t: Option<Tool>)
    ensures t.Some? <==> HasName(ts, name)
    ensures t.Some? ==> t.value.name == name && t.value in ts
  {
    if ts == [] then None
    else
      var last := ts[|ts| - 1];
      if last.name == name then
        assert ts[|ts| - 1].name == name;
        Some(last)
      else
        var r := Lookup(ts[..|ts| - 1], name);
        assert forall i :: 0 <= i < |ts| - 1 ==> ts[..|ts| - 1][i] == ts[i];
        r
  }

  function Remove(ts: seq<Tool>, name: string): (r: seq<Tool>) {
    if ts == [] then []
    else Remove(ts[..|ts| - 1], name) + (if ts[|ts| - 1].name == name then [] else [ts[|ts| - 1]])
  }

  /** A redeclared tool keeps its place; a new one goes to the end. */
  function Put(ts: seq<Tool>, t: Tool): seq<Tool> {
    if HasName(ts, t.name) then seq(|ts|, i requires 0 <= i < |ts| => if ts[i].name == t.name then t else ts[i])
    else ts + [t]
  }

  function RemoveAll(ts: seq<Tool>, names: seq<string>): seq<Tool>
    decreases |names|
  {
    if names == [] then ts else RemoveAll(Remove(ts, names[0]), names[1..])
  }

  function PutAll(ts: seq<Tool>, added: seq<Tool>): seq<Tool>
    decreases |added|
  {
    if added == [] then ts else PutAll(Put(ts, added[0]), added[1..])
  }

  function Added(s: SystemMessage): seq<Tool> { if s.toolsAdded.Some? then s.toolsAdded.value else [] }
  function Removed(s: SystemMessage): seq<string> { if s.toolsRemoved.Some? then s.toolsRemoved.value else [] }

  /** A system message removes first and then adds. */
  function ApplySystem(ts: seq<Tool>, s: SystemMessage): seq<Tool> { PutAll(RemoveAll(ts, Removed(s)), Added(s)) }

  function Replay(ts: seq<Tool>, ms: seq<Message>): seq<Tool>
    decreases |ms|
  {
    if ms == [] then ts
    else Replay(if ms[0].System? then ApplySystem(ts, ms[0].system) else ts, ms[1..])
  }

  function CurrentTools(ms: seq<Message>): seq<Tool> { Replay([], ms) }

  lemma {:induction false} ReplayConcat(ts: seq<Tool>, a: seq<Message>, b: seq<Message>)
    ensures Replay(ts, a + b) == Replay(Replay(ts, a), b)
    decreases |a|
  {
    if a == [] {
      assert a + b == b;
    } else {
      assert (a + b)[1..] == a[1..] + b;
      ReplayConcat(if a[0].System? then ApplySystem(ts, a[0].system) else ts, a[1..], b);
    }
  }

  lemma {:induction false} RemoveMembers(ts: seq<Tool>, name: string)
    ensures forall t :: t in Remove(ts, name) <==> t in ts && t.name != name
    decreases |ts|
  {
    if ts != [] {
      var init := ts[..|ts| - 1];
      RemoveMembers(init, name);
      assert ts == init + [ts[|ts| - 1]];
    }
  }

  lemma {:induction false} RemoveDistinct(ts: seq<Tool>, name: string)
    requires Distinct(ts)
    ensures Distinct(Remove(ts, name))
    decreases |ts|
  {
    if ts != [] {
      var init, last := ts[..|ts| - 1], ts[|ts| - 1];
      var kept := Remove(init, name);
      RemoveDistinct(init, name);
      forall i | 0 <= i < |kept|
        ensures kept[i].name != last.name
      {
        RemoveMembers(init, name);
        assert kept[i] in init;
      }
    }
  }

  lemma {:induction false} RemoveLookup(ts: seq<Tool>, name: string, other: string)
    ensures Lookup(Remove(ts, name), other) == if other == name then None else Lookup(ts, other)
    decreases |ts|
  {
    if ts != [] {
      var init, last := ts[..|ts| - 1], ts[|ts| - 1];
      RemoveLookup(init, name, other);
      var kept := Remove(init, name);
      if last.name == name {
        ConcatNothing(kept);
      } else {
        assert (kept + [last])[..|kept|] == kept;
      }
    }
  }

  lemma RemoveFacts(ts: seq<Tool>, name: string, other: string)
    requires Distinct(ts)
    ensures Distinct(Remove(ts, name)) && !HasName(Remove(ts, name), name)
    ensures Lookup(Remove(ts, name), other) == if other == name then None else Lookup(ts, other)
  {
    RemoveDistinct(ts, name);
    RemoveLookup(ts, name, name);
    RemoveLookup(ts, name, other);
  }

  lemma PutDistinct(ts: seq<Tool>, t: Tool)
    requires Distinct(ts)
    ensures Distinct(Put(ts, t))
  {
    if HasName(ts, t.name) {
      assert forall i :: 0 <= i < |ts| ==> Put(ts, t)[i].name == ts[i].name;
    }
  }

  lemma PutFacts(ts: seq<Tool>, t: Tool, other: string)
    requires Distinct(ts)
    ensures Distinct(Put(ts, t))
    ensures Lookup(Put(ts, t), other) == if other == t.name then Some(t) else Lookup(ts, other)
  {
    var r := Put(ts, t);
    PutDistinct(ts, t);
    LookupIs(r, t.name, t);
    if HasName(ts, t.name) {
      var i :| 0 <= i < |ts| && ts[i].name == t.name;
      assert r[i] == t;
    } else {
      assert r[|ts|] == t;
    }
    if other != t.name {
      if HasName(ts, other) {
        var i :| 0 <= i < |ts| && ts[i].name == other;
        assert r[i] == ts[i];
        LookupIs(ts, other, ts[i]);
        LookupIs(r, other, ts[i]);
      } else {
        assert !HasName(r, other);
      }
    }
  }

  /** In a list of distinct names the declaration under a name is the one that is there. */
  lemma LookupIs(ts: seq<Tool>, name: string, t: Tool)
    requires Distinct(ts)
    ensures t in ts && t.name == name ==> Lookup(ts, name) == Some(t)
  {
    if t in ts && t.name == name {
      assert HasName(ts, name);
      var found := Lookup(ts, name).value;
      var i :| 0 <= i < |ts| && ts[i] == found;
      var j :| 0 <= j < |ts| && ts[j] == t;
    }
  }

  lemma {:induction false} RemoveAllFacts(ts: seq<Tool>, names: seq<string>, other: string)
    requires Distinct(ts)
    ensures Distinct(RemoveAll(ts, names))
    ensures Lookup(RemoveAll(ts, names), other) == if other in names then None else Lookup(ts, other)
    decreases |names|
  {
    if names != [] {
      RemoveFacts(ts, names[0], other);
      RemoveAllFacts(Remove(ts, names[0]), names[1..], other);
    }
  }

  /** Later declarations of a name win. */
  lemma {:induction false} PutAllFacts(ts: seq<Tool>, added: seq<Tool>, other: string)
    requires Distinct(ts)
    ensures Distinct(PutAll(ts, added))
    ensures Lookup(PutAll(ts, added), other) ==
      if HasName(added, other) then Lookup(added, other) else Lookup(ts, other)
    decreases |added|
  {
    if added != [] {
      PutFacts(ts, added[0], other);
      PutAllFacts(Put(ts, added[0]), added[1..], other);
      LookupTail(added, other);
    }
  }

  lemma {:induction false} LookupTail(ts: seq<Tool>, name: string)
    requires ts != []
    ensures Lookup(ts, name) ==
      if HasName(ts[1..], name) then Lookup(ts[1..], name)
      else if ts[0].name == name then Some(ts[0]) else None
    ensures HasName(ts, name) <==> ts[0].name == name || HasName(ts[1..], name)
    decreases |ts|
  {
    var init, last := ts[..|ts| - 1], ts[|ts| - 1];
    assert HasName(ts[1..], name) ==> HasName(ts, name) by {
      if HasName(ts[1..], name) {
        var i :| 0 <= i < |ts[1..]| && ts[1..][i].name == name;
        assert ts[i + 1].name == name;
      }
    }
    if HasName(ts, name) && ts[0].name != name {
      var i :| 0 <= i < |ts| && ts[i].name == name;
      assert ts[1..][i - 1].name == name;
    }
    if |ts| > 1 {
      LookupTail(init, name);
      assert init[1..] == ts[1..][..|ts| - 2] && ts[1..][|ts| - 2] == last;
    }
  }

  lemma {:induction false} ReplayDistinct(ts: seq<Tool>, ms: seq<Message>)
    requires Distinct(ts)
    ensures Distinct(Replay(ts, ms))
    decreases |ms|
  {
    if ms != [] {
      if ms[0].System? {
        RemoveAllFacts(ts, Removed(ms[0].system), "");
        PutAllFacts(RemoveAll(ts, Removed(ms[0].system)), Added(ms[0].system), "");
        ReplayDistinct(ApplySystem(ts, ms[0].system), ms[1..]);
      } else {
        ReplayDistinct(ts, ms[1..]);
      }
    }
  }

  /** Adding tools with new, distinct names appends them. */
  lemma {:induction false} PutAllAppends(ts: seq<Tool>, added: seq<Tool>)
    requires Distinct(ts + added)
    ensures PutAll(ts, added) == ts + added
    decreases |added|
  {
    if added == [] {
      assert ts + added == ts;
    } else {
      var t := added[0];
      assert ts + added == ts + [t] + added[1..];
      forall i | 0 <= i < |ts|
        ensures ts[i].name != t.name
      {
        assert (ts + added)[i] == ts[i] && (ts + added)[|ts|] == t;
      }
      assert Put(ts, t) == ts + [t];
      PutAllAppends(ts + [t], added[1..]);
    }
  }

  // ---------------------------------------------------------------------------
  // The replay loop
  // ---------------------------------------------------------------------------

  function Names(ts: seq<Tool>): seq<string> { seq(|ts|, i requires 0 <= i < |ts| => ts[i].name) }

  /** `order` and `tools` together hold the list `ts`. */
  ghost predicate Holds(order: seq<string>, tools: map<string, Tool>, ts: seq<Tool>) {
    && Distinct(ts) && order == Names(ts)
    && (forall n :: if n in tools then Lookup(ts, n) == Some(tools[n]) else Lookup(ts, n).None?)
  }

  function Without(order: seq<string>, name: string): seq<string> {
    if order == [] then []
    else Without(order[..|order| - 1], name) + (if order[|order| - 1] == name then [] else [order[|order| - 1]])
  }

  lemma {:induction false} NamesRemove(ts: seq<Tool>, name: string)
    ensures Names(Remove(ts, name)) == Without(Names(ts), name)
    decreases |ts|
  {
    if ts != [] {
      var init := ts[..|ts| - 1];
      NamesRemove(init, name);
      assert Names(ts)[..|ts| - 1] == Names(init);
    }
  }

  lemma HoldsRemove(order: seq<string>, tools: map<string, Tool>, ts: seq<Tool>, name: string)
    requires Holds(order, tools, ts)
    ensures Holds(Without(order, name), tools - {name}, Remove(ts, name))
  {
    NamesRemove(ts, name);
    RemoveDistinct(ts, name);
    forall n
      ensures Lookup(Remove(ts, name), n) == if n == name then None else Lookup(ts, n)
    {
      RemoveLookup(ts, name, n);
    }
  }

  lemma HoldsPut(order: seq<string>, tools: map<string, Tool>, ts: seq<Tool>, t: Tool)
    requires Holds(order, tools, ts)
    ensures Holds(if t.name in tools then order else order + [t.name], tools[t.name := t], Put(ts, t))
  {
    assert t.name in tools <==> HasName(ts, t.name);
    PutDistinct(ts, t);
    forall n
      ensures Lookup(Put(ts, t), n) == if n == t.name then Some(t) else Lookup(ts, n)
    {
      PutFacts(ts, t, n);
    }
    assert |Names(Put(ts, t))| == |if t.name in tools then order else order + [t.name]|;
    assert Names(Put(ts, t)) == if t.name in tools then order else order + [t.name];
  }

  /** The declared tools of a transcript: an order of names and a map of declarations, updated in place. */
  method GetCurrentTools(messages: seq<Message>) returns (current: seq<Tool>)
    ensures current == CurrentTools(messages)
  {
    var order: seq<string> := [];
    var tools: map<string, Tool> := map[];
    ghost var ts: seq<Tool> := [];
    for m := 0 to |messages|
      invariant Holds(order, tools, ts)
      invariant Replay(ts, messages[m..]) == CurrentTools(messages)
    {
      assert messages[m..][0] == messages[m] && messages[m..][1..] == messages[m + 1..];
      if messages[m].System? {
        var sys := messages[m].system;
        ghost var before := ts;
        var removed := Removed(sys);
        for i := 0 to |removed|
          invariant Holds(order, tools, ts)
          invariant RemoveAll(ts, removed[i..]) == RemoveAll(before, removed)
        {
          assert removed[i..][0] == removed[i] && removed[i..][1..] == removed[i + 1..];
          HoldsRemove(order, tools, ts, removed[i]);
          tools := tools - {removed[i]};
          order := Without(order, removed[i]);
          ts := Remove(ts, removed[i]);
        }
        ghost var middle := ts;
        var added := Added(sys);
        for i := 0 to |added|
          invariant Holds(order, tools, ts)
          invariant PutAll(ts, added[i..]) == PutAll(middle, added)
        {
          assert added[i..][0] == added[i] && added[i..][1..] == added[i + 1..];
          HoldsPut(order, tools, ts, added[i]);
          if added[i].name !in tools {
            order := order + [added[i].name];
          }
          tools := tools[added[i].name := added[i]];
          ts := Put(ts, added[i]);
        }
      }
    }
    current := [];
    for i := 0 to |order|
      invariant current == ts[..i]
    {
      assert order[i] == ts[i].name && HasName(ts, order[i]);
      LookupIs(ts, order[i], ts[i]);
      current := current + [tools[order[i]]];
    }
  }

  // ---------------------------------------------------------------------------
  // The current system message
  // ---------------------------------------------------------------------------

  function Texts(ms: seq<Message>): seq<string> {
    if ms == [] then []
    else
      (if ms[0].System? && AsPlainText(ms[0].system.content) != "" then [AsPlainText(ms[0].system.content)] else [])
      + Texts(ms[1..])
  }

  /** A section set to nothing is removed. */
  function UpdateSections(sections: Sections, change: Sections): Sections {
    map k | k in sections.Keys + change.Keys && (k in change ==> change[k].Some?) ::
      if k in change then change[k] else sections[k]
  }

  function ReplaySections(sections: Sections, ms: seq<Message>): Sections
    decreases |ms|
  {
    if ms == [] then sections
    else
      ReplaySections(
        if ms[0].System? && ms[0].system.sections.Some?
        then UpdateSections(sections, ms[0].system.sections.value) else sections,
        ms[1..])
  }

  function FirstTimestamp(ms: seq<Message>): Option<nat> {
    if ms == [] then None
    else if ms[0].System? then Some(ms[0].system.timestamp)
    else FirstTimestamp(ms[1..])
  }

  function CurrentSystem(ms: seq<Message>): Option<SystemMessage> {
    var tools := CurrentTools(ms);
    var sections := ReplaySections(map[], ms);
    var timestamp := FirstTimestamp(ms);
    if timestamp.None? && tools == [] then None
    else Some(SystemMessage(
      Text(Join(Texts(ms), "\n\n")),
      if sections == map[] then None else Some(sections),
      if tools == [] then None else Some(tools),
      None,
      if timestamp.Some? then timestamp.value else 0))
  }

  /** One system message in front that stands for all of them. */
  function Collapse(ms: seq<Message>): seq<Message> {
    match CurrentSystem(ms)
    case Some(head) => [System(head)] + WithoutSystem(ms)
    case None => WithoutSystem(ms)
  }

  lemma {:induction false} NoSystemNothing(ms: seq<Message>, ts: seq<Tool>, sections: Sections)
    requires forall i :: 0 <= i < |ms| ==> !ms[i].System?
    ensures Replay(ts, ms) == ts && ReplaySections(sections, ms) == sections && Texts(ms) == []
    ensures FirstTimestamp(ms) == None && WithoutSystem(ms) == ms
    decreases |ms|
  {
    if ms != [] {
      NoSystemNothing(ms[1..], ts, sections);
      assert ms == [ms[0]] + ms[1..];
    }
  }

  lemma {:induction false} WithoutSystemHasNone(ms: seq<Message>)
    ensures forall i :: 0 <= i < |WithoutSystem(ms)| ==> !WithoutSystem(ms)[i].System?
  {
    if ms != [] {
      WithoutSystemHasNone(ms[1..]);
    }
  }

  lemma {:induction false} NoTimestampNoSystem(ms: seq<Message>)
    requires FirstTimestamp(ms).None?
    ensures forall i :: 0 <= i < |ms| ==> !ms[i].System?
  {
    if ms != [] {
      NoTimestampNoSystem(ms[1..]);
      forall i | 0 <= i < |ms|
        ensures !ms[i].System?
      {
        if i > 0 {
          assert ms[i] == ms[1..][i - 1];
        }
      }
    }
  }

  lemma {:induction false} TextsNotEmpty(ms: seq<Message>)
    ensures forall i :: 0 <= i < |Texts(ms)| ==> Texts(ms)[i] != ""
    ensures Texts(ms) != [] ==> Join(Texts(ms), "\n\n") != ""
  {
    if ms != [] {
      TextsNotEmpty(ms[1..]);
    }
  }

  lemma {:induction false} SectionsAllSet(sections: Sections, ms: seq<Message>)
    requires forall k :: k in sections ==> sections[k].Some?
    ensures forall k :: k in ReplaySections(sections, ms) ==> ReplaySections(sections, ms)[k].Some?
    decreases |ms|
  {
    if ms != [] {
      SectionsAllSet(
        if ms[0].System? && ms[0].system.sections.Some?
        then UpdateSections(sections, ms[0].system.sections.value) else sections,
        ms[1..]);
    }
  }

  /** Reading back the one message that was built from a transcript. */
  lemma HeadReadsBack(ms: seq<Message>)
    requires CurrentSystem(ms).Some?
    ensures var head := [System(CurrentSystem(ms).value)];
      && CurrentTools(head) == CurrentTools(ms)
      && ReplaySections(map[], head) == ReplaySections(map[], ms)
      && Join(Texts(head), "\n\n") == Join(Texts(ms), "\n\n")
      && FirstTimestamp(head) == Some(CurrentSystem(ms).value.timestamp)
  {
    var sys := CurrentSystem(ms).value;
    var head := [System(sys)];
    assert head[1..] == [];
    ReplayDistinct([], ms);
    ConcatNothing(CurrentTools(ms));
    PutAllAppends([], CurrentTools(ms));
    assert CurrentTools(head) == CurrentTools(ms) by {
      assert Added(sys) == CurrentTools(ms) && Removed(sys) == [];
      assert CurrentTools(head) == Replay(ApplySystem([], sys), head[1..]);
    }
    SectionsAllSet(map[], ms);
    TextsNotEmpty(ms);
    var sections := ReplaySections(map[], ms);
    assert UpdateSections(map[], sections) == sections;
    var text := Join(Texts(ms), "\n\n");
    assert Texts(head) == if text != "" then [text] else [];
  }

  /** Collapsing keeps the current tools in their order and the current system message. */
  lemma CollapseKeeps(ms: seq<Message>)
    ensures CurrentTools(Collapse(ms)) == CurrentTools(ms)
    ensures CurrentSystem(Collapse(ms)) == CurrentSystem(ms)
    ensures WithoutSystem(Collapse(ms)) == WithoutSystem(ms)
  {
    var rest := WithoutSystem(ms);
    WithoutSystemHasNone(ms);
    if CurrentSystem(ms).Some? {
      var head := [System(CurrentSystem(ms).value)];
      HeadReadsBack(ms);
      NoSystemNothing(rest, CurrentTools(ms), ReplaySections(map[], ms));
      NoTimestamp(ms);
      assert head[1..] == [];
      assert Collapse(ms)[0] == head[0] && Collapse(ms)[1..] == rest;
      ReplayConcat([], head, rest);
      assert Texts(Collapse(ms)) == Texts(head) + Texts(rest);
      ConcatNothing(Texts(head));
      assert Texts(head) == Texts(head) + Texts(head[1..]);
      assert ReplaySections(map[], Collapse(ms)) == ReplaySections(ReplaySections(map[], head), rest);
    } else {
      NoTimestampNoSystem(ms);
      NoSystemNothing(ms, [], map[]);
    }
  }

  lemma NoTimestamp(ms: seq<Message>)
    ensures FirstTimestamp(ms).None? ==> CurrentSystem(ms).None?
  {
    if FirstTimestamp(ms).None? {
      NoTimestampNoSystem(ms);
      NoSystemNothing(ms, [], map[]);
    }
  }

  lemma CollapseIdempotent(ms: seq<Message>)
    ensures Collapse(Collapse(ms)) == Collapse(ms)
  {
    CollapseKeeps(ms);
  }

  // ---------------------------------------------------------------------------
  // Folding for providers that only take additions
  // ---------------------------------------------------------------------------

  function Systems(ms: seq<Message>): seq<SystemMessage> {
    if ms == [] then [] else (if ms[0].System? then [ms[0].system] else []) + Systems(ms[1..])
  }

  /** Names declared by the first `n` system messages and the first `k` additions of the next. */
  predicate DeclaredBefore(systems: seq<SystemMessage>, n: nat, k: nat, name: string)
    requires n < |systems| && k <= |Added(systems[n])|
  {
    (exists i :: 0 <= i < n && HasName(Added(systems[i]), name)) || HasName(Added(systems[n])[..k], name)
  }

  /** A system message that removes a tool or declares a name again. */
  predicate NonAdditive(systems: seq<SystemMessage>, n: nat)
    requires n < |systems|
  {
    Removed(systems[n]) != []
    || exists k :: 0 <= k < |Added(systems[n])| && DeclaredBefore(systems, n, k, Added(systems[n])[k].name)
  }

  /** The last system message that is not purely additive, or -1. */
  method FindLastNonAdditive(systems: seq<SystemMessage>) returns (last: int)
    ensures -1 <= last < |systems|
    ensures last >= 0 ==> NonAdditive(systems, last)
    ensures forall n :: last < n < |systems| ==> !NonAdditive(systems, n)
  {
    hide HasName;
    var declared: set<string> := {};
    last := -1;
    for n := 0 to |systems|
      invariant -1 <= last < n
      invariant last >= 0 ==> NonAdditive(systems, last)
      invariant forall j :: last < j < n ==> !NonAdditive(systems, j)
      invariant forall name :: name in declared <==> exists i :: 0 <= i < n && HasName(Added(systems[i]), name)
    {
      ghost var before := last;
      if Removed(systems[n]) != [] {
        last := n;
      }
      var added := Added(systems[n]);
      assert added[..0] == [];
      NoNames();
      for k := 0 to |added|
        invariant last == before || last == n
        invariant last == n <==>
          (Removed(systems[n]) != [] || exists j :: 0 <= j < k && DeclaredBefore(systems, n, j, added[j].name))
        invariant forall name :: name in declared <==> DeclaredBefore(systems, n, k, name)
      {
        if added[k].name in declared {
          last := n;
        }
        DeclareOne(systems, n, k);
        declared := declared + {added[k].name};
      }
      assert added[..|added|] == added;
    }
  }

  lemma NoNames()
    ensures forall name :: !HasName([], name)
  {
  }

  lemma HasNamePush(ts: seq<Tool>, k: nat, name: string)
    requires k < |ts|
    ensures HasName(ts[..k + 1], name) <==> (HasName(ts[..k], name) || name == ts[k].name)
  {
    var fewer, more := ts[..k], ts[..k + 1];
    assert more[k] == ts[k];
    if HasName(fewer, name) {
      var i :| 0 <= i < k && fewer[i].name == name;
      assert more[i].name == name;
    }
    if HasName(more, name) && name != ts[k].name {
      var i :| 0 <= i < |more| && more[i].name == name;
      assert fewer[i].name == name;
    }
  }

  lemma DeclareOne(systems: seq<SystemMessage>, n: nat, k: nat)
    requires n < |systems| && k < |Added(systems[n])|
    ensures forall name ::
      (DeclaredBefore(systems, n, k + 1, name) <==>
       (DeclaredBefore(systems, n, k, name) || name == Added(systems[n])[k].name))
  {
    hide HasName, Added;
    forall name
      ensures DeclaredBefore(systems, n, k + 1, name) <==>
        (DeclaredBefore(systems, n, k, name) || name == Added(systems[n])[k].name)
    {
      HasNamePush(Added(systems[n]), k, name);
    }
  }

  function AllAdded(systems: seq<SystemMessage>): seq<Tool> {
    if systems == [] then [] else Added(systems[0]) + AllAdded(systems[1..])
  }

  function ReplaySystems(ts: seq<Tool>, systems: seq<SystemMessage>): seq<Tool>
    decreases |systems|
  {
    if systems == [] then ts else ReplaySystems(ApplySystem(ts, systems[0]), systems[1..])
  }

  lemma {:induction false} ReplayIsReplaySystems(ts: seq<Tool>, ms: seq<Message>)
    ensures Replay(ts, ms) == ReplaySystems(ts, Systems(ms))
    decreases |ms|
  {
    if ms != [] {
      ReplayIsReplaySystems(if ms[0].System? then ApplySystem(ts, ms[0].system) else ts, ms[1..]);
      if ms[0].System? {
        assert Systems(ms) == [ms[0].system] + Systems(ms[1..]);
        assert Systems(ms)[1..] == Systems(ms[1..]);
      } else {
        ConcatNothing(Systems(ms[1..]));
        assert Systems(ms) == Systems(ms[1..]);
      }
    }
  }

  lemma {:induction false} ReplaySystemsConcat(ts: seq<Tool>, a: seq<SystemMessage>, b: seq<SystemMessage>)
    ensures ReplaySystems(ts, a + b) == ReplaySystems(ReplaySystems(ts, a), b)
    decreases |a|
  {
    if a == [] {
      assert a + b == b;
    } else {
      assert (a + b)[1..] == a[1..] + b;
      ReplaySystemsConcat(ApplySystem(ts, a[0]), a[1..], b);
    }
  }

  /** Every tool in force was declared by some system message. */
  lemma {:induction false} InForceWasDeclared(systems: seq<SystemMessage>, n: nat, name: string)
    requires n <= |systems| && HasName(ReplaySystems([], systems[..n]), name)
    ensures exists i :: 0 <= i < n && HasName(Added(systems[i]), name)
    decreases n
  {
    if n > 0 {
      assert systems[..n] == systems[..n - 1] + [systems[n - 1]];
      var ts := ReplaySystems([], systems[..n - 1]);
      ReplaySystemsConcat([], systems[..n - 1], [systems[n - 1]]);
      assert [systems[n - 1]][1..] == [];
      SystemsDistinct([], systems[..n - 1]);
      RemoveAllFacts(ts, Removed(systems[n - 1]), name);
      PutAllFacts(RemoveAll(ts, Removed(systems[n - 1])), Added(systems[n - 1]), name);
      if !HasName(Added(systems[n - 1]), name) {
        InForceWasDeclared(systems, n - 1, name);
      }
    }
  }

  lemma {:induction false} SystemsDistinct(ts: seq<Tool>, systems: seq<SystemMessage>)
    requires Distinct(ts)
    ensures Distinct(ReplaySystems(ts, systems))
    decreases |systems|
  {
    if systems != [] {
      RemoveAllFacts(ts, Removed(systems[0]), "");
      PutAllFacts(RemoveAll(ts, Removed(systems[0])), Added(systems[0]), "");
      SystemsDistinct(ApplySystem(ts, systems[0]), systems[1..]);
    }
  }

  /** One purely additive message appends its tools. */
  lemma AdditiveAppends(systems: seq<SystemMessage>, n: nat)
    requires n < |systems| && !NonAdditive(systems, n)
    ensures ReplaySystems([], systems[..n + 1]) == ReplaySystems([], systems[..n]) + Added(systems[n])
  {
    var ts := ReplaySystems([], systems[..n]);
    var added := Added(systems[n]);
    assert systems[..n + 1] == systems[..n] + [systems[n]];
    ReplaySystemsConcat([], systems[..n], [systems[n]]);
    assert [systems[n]][1..] == [];
    SystemsDistinct([], systems[..n]);
    var all: seq<Tool> := ts + added;
    forall i, j | 0 <= i < j < |all|
      ensures all[i].name != all[j].name
    {
      if j >= |ts| {
        var k := j - |ts|;
        assert !DeclaredBefore(systems, n, k, added[k].name);
        if i < |ts| {
          if ts[i].name == added[k].name {
            assert HasName(ts, added[k].name);
            InForceWasDeclared(systems, n, added[k].name);
          }
        } else {
          assert added[..k][i - |ts|] == added[i - |ts|];
        }
      }
    }
    PutAllAppends(ts, added);
  }

  /** Past the last non-additive message, the folded tools and the later
      additions are together exactly the replayed list. */
  lemma {:induction false} FoldingIsExact(systems: seq<SystemMessage>, folded: nat, n: nat)
    requires folded <= n <= |systems| && forall i :: folded <= i < n ==> !NonAdditive(systems, i)
    ensures ReplaySystems([], systems[..folded]) + AllAdded(systems[folded..n]) == ReplaySystems([], systems[..n])
    decreases n
  {
    hide ReplaySystems, AllAdded, NonAdditive, Added;
    if n == folded {
      assert systems[folded..n] == [];
      NothingAdded();
      ConcatNothing(ReplaySystems([], systems[..folded]));
    } else {
      FoldingIsExact(systems, folded, n - 1);
      AdditiveAppends(systems, n - 1);
      assert systems[folded..n] == systems[folded..n - 1] + [systems[n - 1]];
      AllAddedPush(systems[folded..n - 1], systems[n - 1]);
      ConcatAssociates(ReplaySystems([], systems[..folded]), AllAdded(systems[folded..n - 1]), Added(systems[n - 1]));
    }
  }

  lemma NothingAdded()
    ensures AllAdded([]) == []
  {
  }

  lemma {:induction false} AllAddedPush(systems: seq<SystemMessage>, s: SystemMessage)
    ensures AllAdded(systems + [s]) == AllAdded(systems) + Added(s)
    decreases |systems|
  {
    if systems == [] {
      assert systems + [s] == [s] && [s][1..] == [];
      ConcatNothing(Added(s));
    } else {
      assert (systems + [s])[1..] == systems[1..] + [s];
      AllAddedPush(systems[1..], s);
      ConcatAssociates(Added(systems[0]), AllAdded(systems[1..]), Added(s));
    }
  }

  datatype Support = NoSupport | Additions | Changes

  /** What a provider is told up front, and how many system messages that covers. */
  method ResolveTranscriptTools(messages: seq<Message>, support: Support)
    returns (requestTools: seq<Tool>, folded: nat)
    ensures folded <= |Systems(messages)|
    ensures support == NoSupport ==> requestTools == CurrentTools(messages) && folded == |Systems(messages)|
    ensures support == Changes ==> requestTools == [] && folded == 0
    ensures support == Additions ==>
      && requestTools + AllAdded(Systems(messages)[folded..]) == CurrentTools(messages)
      && (forall i :: folded <= i < |Systems(messages)| ==> !NonAdditive(Systems(messages), i))
      && (messages != [] && messages[0].System? ==> folded >= 1)
      && (folded > (if messages != [] && messages[0].System? then 1 else 0) ==>
            NonAdditive(Systems(messages), folded - 1))
  {
    var systems := Systems(messages);
    match support
    case NoSupport =>
      requestTools := GetCurrentTools(messages);
      folded := |systems|;
    case Changes =>
      requestTools, folded := [], 0;
    case Additions =>
      var initial := if messages != [] && messages[0].System? then 1 else 0;
      var last := FindLastNonAdditive(systems);
      folded := if last + 1 > initial then last + 1 else initial;
      var foldedMessages := seq(folded, i requires 0 <= i < folded => System(systems[i]));
      requestTools := GetCurrentTools(foldedMessages);
      SystemsOfFolded(systems, folded, foldedMessages);
      ReplayIsReplaySystems([], foldedMessages);
      FoldingIsExact(systems, folded, |systems|);
      assert systems[..|systems|] == systems && systems[folded..|systems|] == systems[folded..];
      ReplayIsReplaySystems([], messages);
  }

  lemma {:induction false} SystemsOfFolded(systems: seq<SystemMessage>, n: nat, ms: seq<Message>)
    requires n <= |systems| && |ms| == n && forall i :: 0 <= i < n ==> ms[i] == System(systems[i])
    ensures Systems(ms) == systems[..n]
    decreases n
  {
    if n > 0 {
      forall i | 0 <= i < n - 1
        ensures ms[1..][i] == System(systems[1..][i])
      {
        assert ms[1..][i] == ms[i + 1];
      }
      SystemsOfFolded(systems[1..], n - 1, ms[1..]);
      assert systems[..n] == [systems[0]] + systems[1..][..n - 1];
    }
  }
}
