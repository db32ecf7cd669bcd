/** Telling the model which tools it may call: the agent compares the tools the
    transcript declares with the tools it can execute, and writes the difference
    into a system message. */
module DeclareTools {
  import opened Options
  import opened Seqs
  import opened Messages
  import opened TranscriptTools

  /** A message of the agent's history; custom messages never reach the model. */
  datatype AgentMessage = Chat(message: Message) | Custom(role: string, data: string)

  predicate IsSystem(m: AgentMessage) { m.Chat? && m.message.System? }

  predicate NoSystem(ms: seq<AgentMessage>) { forall i :: 0 <= i < |ms| ==> !IsSystem(ms[i]) }

  function SystemMessages(ms: seq<AgentMessage>): seq<Message> {
    if ms == [] then [] else (if IsSystem(ms[0]) then [ms[0].message] else []) + SystemMessages(ms[1..])
  }

  function AgentCurrentTools(ms: seq<AgentMessage>): seq<Tool> { CurrentTools(SystemMessages(ms)) }

  datatype ToolStateChanges = ToolStateChanges(added: seq<Tool>, removed: seq<string>)

  const NO_CHANGES := ToolStateChanges([], [])

  /** The tools of `current` that `previous` lacks or declares differently. */
  function Undeclared(previous: seq<Tool>, current: seq<Tool>): seq<Tool> {
    if current == [] then []
    else
      (if Lookup(previous, current[0].name) == Some(current[0]) then [] else [current[0]])
      + Undeclared(previous, current[1..])
  }

  /** The names in `previous` that `current` lacks or declares differently. */
  function Stale(previous: seq<Tool>, current: seq<Tool>): seq<string> {
    if previous == [] then []
    else
      (if Lookup(current, previous[0].name) == Some(previous[0]) then [] else [previous[0].name])
      + Stale(previous[1..], current)
  }

  lemma {:induction false} UndeclaredMembers(previous: seq<Tool>, current: seq<Tool>)
    ensures forall t :: t in Undeclared(previous, current) <==> t in current && Lookup(previous, t.name) != Some(t)
  {
    if current != [] {
      UndeclaredMembers(previous, current[1..]);
    }
  }

  lemma {:induction false} StaleMembers(previous: seq<Tool>, current: seq<Tool>)
    ensures forall n :: n in Stale(previous, current) <==>
      exists t :: t in previous && t.name == n && Lookup(current, n) != Some(t)
  {
    if previous != [] {
      StaleMembers(previous[1..], current);
    }
  }

  function GetToolStateChanges(previous: seq<Tool>, current: seq<Tool>): ToolStateChanges {
    ToolStateChanges(Undeclared(previous, current), Stale(previous, current))
  }

  function WithToolChanges(s: SystemMessage, changes: ToolStateChanges): SystemMessage {
    s.(toolsAdded := if changes.added == [] then None else Some(changes.added),
       toolsRemoved := if changes.removed == [] then None else Some(changes.removed))
  }

  /** Position of the last system message, or -1. */
  function LastSystem(ms: seq<AgentMessage>): (i: int)
    ensures -1 <= i < |ms|
    ensures i >= 0 ==> IsSystem(ms[i])
  {
    if ms == [] then -1 else if IsSystem(ms[|ms| - 1]) then |ms| - 1 else LastSystem(ms[..|ms| - 1])
  }

  lemma {:induction false} LastSystemIsLast(ms: seq<AgentMessage>)
    ensures NoSystem(ms[LastSystem(ms) + 1..])
  {
    if ms != [] && !IsSystem(ms[|ms| - 1]) {
      var i := LastSystem(ms);
      LastSystemIsLast(ms[..|ms| - 1]);
      assert ms[i + 1..] == ms[..|ms| - 1][i + 1..] + [ms[|ms| - 1]];
    }
  }

  /** Position of the first message that is not a system message; the length if there is none. */
  function FirstNonSystem(ms: seq<AgentMessage>): (i: nat)
    ensures i <= |ms|
    ensures i < |ms| ==> !IsSystem(ms[i])
    ensures forall j :: 0 <= j < i ==> IsSystem(ms[j])
  {
    if ms == [] || !IsSystem(ms[0]) then 0 else 1 + FirstNonSystem(ms[1..])
  }

  /** The pending messages as if their last system message changed no tools. */
  function Baseline(pending: seq<AgentMessage>): seq<AgentMessage> {
    var last := LastSystem(pending);
    if last >= 0 then pending[last := Chat(System(WithToolChanges(pending[last].message.system, NO_CHANGES)))]
    else pending
  }

  /** The tools declared before the changes are written. */
  function Declared(history: seq<AgentMessage>, pending: seq<AgentMessage>): seq<Tool> {
    AgentCurrentTools(history + Baseline(pending))
  }

  function ChangesNeeded(
    history: seq<AgentMessage>, executable: seq<Tool>, pending: seq<AgentMessage>): ToolStateChanges
  {
    GetToolStateChanges(Declared(history, pending), executable)
  }

  /** The pending messages with the tool changes written into the last system
      message, or into a new one in front of the conversation. */
  function DeclareToolChanges(
    history: seq<AgentMessage>, executable: seq<Tool>, pending: seq<AgentMessage>, now: nat): seq<AgentMessage>
  {
    var last := LastSystem(pending);
    var changes := ChangesNeeded(history, executable, pending);
    if last >= 0 then
      var sys := pending[last].message.system;
      if changes == NO_CHANGES && Added(sys) == [] && Removed(sys) == [] then pending
      else pending[last := Chat(System(WithToolChanges(sys, changes)))]
    else if changes == NO_CHANGES then pending
    else
      var blank := SystemMessage(Text(""), None, None, None, now);
      var at := FirstNonSystem(pending);
      pending[..at] + [Chat(System(WithToolChanges(blank, changes)))] + pending[at..]
  }

  // ---------------------------------------------------------------------------
  // Replaying the changes reaches the executable tools
  // ---------------------------------------------------------------------------

  /** Two lists declare the same tools under the same names. */
  ghost predicate SameDeclarations(a: seq<Tool>, b: seq<Tool>) { forall n :: Lookup(a, n) == Lookup(b, n) }

  lemma InHasName(ts: seq<Tool>, t: Tool)
    ensures t in ts ==> HasName(ts, t.name)
  {
  }

  /** A tool hidden behind a later one of its name, where that later one is what is
      declared already: the computed changes then declare the hidden one over it. */
  ghost predicate Uncovers(previous: seq<Tool>, current: seq<Tool>) {
    exists t | t in current :: Lookup(current, t.name) != Some(t) && Lookup(previous, t.name) == Lookup(current, t.name)
  }

  /** A declaration that is not there yet, or differs, is among the additions, and
      is the last one of its name there. */
  lemma {:induction false} UndeclaredLookup(previous: seq<Tool>, current: seq<Tool>, name: string)
    requires Lookup(current, name).Some? && Lookup(previous, name) != Lookup(current, name)
    ensures Lookup(Undeclared(previous, current), name) == Lookup(current, name)
  {
    hide Lookup, HasName;
    NameAtFront(current, name);
    var t, rest := current[0], Undeclared(previous, current[1..]);
    LookupTail(current, name);
    LookupTail([t] + rest, name);
    assert ([t] + rest)[1..] == rest && [] + rest == rest;
    if HasName(current[1..], name) {
      UndeclaredLookup(previous, current[1..], name);
    } else if HasName(rest, name) {
      UndeclaredMembers(previous, current[1..]);
      InHasName(current[1..], Lookup(rest, name).value);
    }
  }

  lemma NameAtFront(ts: seq<Tool>, name: string)
    requires Lookup(ts, name).Some?
    ensures ts != []
  {
  }

  /** What a name stands for after the changes. */
  lemma ChangedLookup(previous: seq<Tool>, current: seq<Tool>, n: string)
    requires Distinct(previous)
    ensures var c := GetToolStateChanges(previous, current);
      Lookup(PutAll(RemoveAll(previous, c.removed), c.added), n)
        == if Lookup(previous, n) == Lookup(current, n) && HasName(c.added, n) then Lookup(c.added, n)
           else Lookup(current, n)
  {
    var c := GetToolStateChanges(previous, current);
    UndeclaredMembers(previous, current);
    StaleMembers(previous, current);
    RemoveAllFacts(previous, c.removed, n);
    PutAllFacts(RemoveAll(previous, c.removed), c.added, n);
    if Lookup(previous, n) == Lookup(current, n) {
      forall t | t in previous && t.name == n
        ensures Lookup(current, n) == Some(t)
      {
        LookupIs(previous, n, t);
      }
    } else if Lookup(current, n).Some? {
      UndeclaredLookup(previous, current, n);
    } else {
      assert Lookup(previous, n).value in previous;
      assert n in c.removed;
      if HasName(c.added, n) {
        InHasName(current, Lookup(c.added, n).value);
      }
    }
  }

  /** Applying the computed changes declares exactly the current tools if and only
      if they uncover none. */
  lemma ChangesSynchroniseExactly(previous: seq<Tool>, current: seq<Tool>)
    requires Distinct(previous)
    ensures var c := GetToolStateChanges(previous, current);
      SameDeclarations(PutAll(RemoveAll(previous, c.removed), c.added), current) <==> !Uncovers(previous, current)
  {
    hide Lookup, HasName, PutAll, RemoveAll;
    var c := GetToolStateChanges(previous, current);
    UndeclaredMembers(previous, current);
    if Uncovers(previous, current) {
      var t :|
        t in current && Lookup(current, t.name) != Some(t) && Lookup(previous, t.name) == Lookup(current, t.name);
      assert t in c.added;
      InHasName(c.added, t);
      ChangedLookup(previous, current, t.name);
      NotShadowed(previous, current, t.name);
    } else {
      forall n
        ensures Lookup(PutAll(RemoveAll(previous, c.removed), c.added), n) == Lookup(current, n)
      {
        ChangedLookup(previous, current, n);
        if Lookup(previous, n) == Lookup(current, n) {
          NotShadowed(previous, current, n);
        }
      }
    }
  }

  /** What is declared as it should be is not among the additions, so whatever of
      its name is among them differs. */
  lemma NotShadowed(previous: seq<Tool>, current: seq<Tool>, n: string)
    requires Lookup(previous, n) == Lookup(current, n)
    ensures var added := Undeclared(previous, current);
      HasName(added, n) ==>
        && Lookup(added, n) != Lookup(current, n)
        && Lookup(added, n).Some? && Lookup(added, n).value in current && Lookup(added, n).value.name == n
  {
    UndeclaredMembers(previous, current);
  }

  lemma DistinctUncoversNothing(previous: seq<Tool>, current: seq<Tool>)
    requires Distinct(current)
    ensures !Uncovers(previous, current)
  {
    forall t | t in current
      ensures Lookup(current, t.name) == Some(t)
    {
      LookupIs(current, t.name, t);
    }
  }

  lemma ChangesSynchronise(previous: seq<Tool>, current: seq<Tool>)
    requires Distinct(previous) && Distinct(current)
    ensures var c := GetToolStateChanges(previous, current);
      SameDeclarations(PutAll(RemoveAll(previous, c.removed), c.added), current)
  {
    ChangesSynchroniseExactly(previous, current);
    DistinctUncoversNothing(previous, current);
  }

  /** Lists that declare the same tools call for no change. */
  lemma SameNeedsNothing(previous: seq<Tool>, current: seq<Tool>)
    requires Distinct(previous) && Distinct(current) && SameDeclarations(previous, current)
    ensures GetToolStateChanges(previous, current) == NO_CHANGES
  {
    var c := GetToolStateChanges(previous, current);
    UndeclaredMembers(previous, current);
    StaleMembers(previous, current);
    if c.added != [] {
      var t := c.added[0];
      assert t in c.added;
      LookupIs(current, t.name, t);
    }
    if c.removed != [] {
      var n := c.removed[0];
      assert n in c.removed;
      var t :| t in previous && t.name == n && Lookup(current, n) != Some(t);
      LookupIs(previous, n, t);
    }
  }

  lemma {:induction false} SystemMessagesConcat(a: seq<AgentMessage>, b: seq<AgentMessage>)
    ensures SystemMessages(a + b) == SystemMessages(a) + SystemMessages(b)
  {
    if a == [] {
      assert a + b == b;
    } else {
      assert (a + b)[1..] == a[1..] + b;
      SystemMessagesConcat(a[1..], b);
      if IsSystem(a[0]) {
        ConcatAssociates([a[0].message], SystemMessages(a[1..]), SystemMessages(b));
      } else {
        ConcatNothing(SystemMessages(a[1..]));
        ConcatNothing(SystemMessages(a[1..] + b));
      }
    }
  }

  lemma {:induction false} NoSystemMessages(ms: seq<AgentMessage>)
    requires NoSystem(ms)
    ensures SystemMessages(ms) == []
  {
    if ms != [] {
      assert forall i :: 0 <= i < |ms[1..]| ==> ms[1..][i] == ms[i + 1];
      NoSystemMessages(ms[1..]);
    }
  }

  /** A system message that is the last one is replayed last. */
  lemma LastIsReplayedLast(before: seq<AgentMessage>, s: SystemMessage, after: seq<AgentMessage>)
    requires NoSystem(after)
    ensures AgentCurrentTools(before + [Chat(System(s))] + after) == ApplySystem(AgentCurrentTools(before), s)
  {
    var one := [Chat(System(s))];
    SystemMessagesConcat(before + one, after);
    SystemMessagesConcat(before, one);
    NoSystemMessages(after);
    assert one[1..] == [] && SystemMessages(one) == [System(s)];
    ConcatNothing(SystemMessages(before + one));
    ReplayConcat([], SystemMessages(before), [System(s)]);
    assert [System(s)][1..] == [];
  }

  lemma AgentToolsDistinct(ms: seq<AgentMessage>)
    ensures Distinct(AgentCurrentTools(ms))
  {
    ReplayDistinct([], SystemMessages(ms));
  }

  lemma ApplyWritten(ts: seq<Tool>, s: SystemMessage, changes: ToolStateChanges)
    ensures ApplySystem(ts, WithToolChanges(s, changes)) == PutAll(RemoveAll(ts, changes.removed), changes.added)
  {
  }

  lemma SplitAt(history: seq<AgentMessage>, ms: seq<AgentMessage>, i: nat)
    requires i < |ms|
    ensures history + ms == history + ms[..i] + [ms[i]] + ms[i + 1..]
  {
  }

  /** Rewriting the last system message changes what is applied last. */
  lemma RewriteLast(history: seq<AgentMessage>, pending: seq<AgentMessage>, last: nat, s: SystemMessage)
    requires last < |pending| && NoSystem(pending[last + 1..])
    ensures AgentCurrentTools(history + pending[last := Chat(System(s))])
      == ApplySystem(AgentCurrentTools(history + pending[..last]), s)
  {
    hide AgentCurrentTools, ApplySystem, NoSystem;
    var rewritten := pending[last := Chat(System(s))];
    SplitAt(history, rewritten, last);
    assert rewritten[..last] == pending[..last] && rewritten[last + 1..] == pending[last + 1..];
    assert rewritten[last] == Chat(System(s));
    LastIsReplayedLast(history + pending[..last], s, pending[last + 1..]);
  }

  /** A blank message in front carries the whole difference. */
  lemma BlankInFront(history: seq<AgentMessage>, pending: seq<AgentMessage>, s: SystemMessage)
    requires NoSystem(pending)
    ensures AgentCurrentTools(history + pending) == AgentCurrentTools(history)
    ensures AgentCurrentTools(history + ([Chat(System(s))] + pending)) == ApplySystem(AgentCurrentTools(history), s)
  {
    SystemMessagesConcat(history, pending);
    NoSystemMessages(pending);
    ConcatNothing(SystemMessages(history));
    ConcatAssociates(history, [Chat(System(s))], pending);
    LastIsReplayedLast(history, s, pending);
  }

  lemma PendingSystemSynchronises(
    history: seq<AgentMessage>, executable: seq<Tool>, pending: seq<AgentMessage>, now: nat)
    requires LastSystem(pending) >= 0
    ensures SameDeclarations(
        AgentCurrentTools(history + DeclareToolChanges(history, executable, pending, now)), executable)
      <==> !Uncovers(Declared(history, pending), executable)
  {
    hide AgentCurrentTools, GetToolStateChanges, LastSystem, SameDeclarations, Distinct, PutAll, RemoveAll, Uncovers;
    var last := LastSystem(pending);
    var sys := pending[last].message.system;
    LastSystemIsLast(pending);
    var declared := AgentCurrentTools(history + pending[..last]);
    var changes := GetToolStateChanges(declared, executable);
    RewriteLast(history, pending, last, WithToolChanges(sys, NO_CHANGES));
    RewriteLast(history, pending, last, WithToolChanges(sys, changes));
    RewriteLast(history, pending, last, sys);
    assert pending[last := Chat(System(sys))] == pending;
    ApplyWritten(declared, sys, NO_CHANGES);
    ApplyWritten(declared, sys, changes);
    NothingToApply(declared);
    AgentToolsDistinct(history + pending[..last]);
    ChangesSynchroniseExactly(declared, executable);
  }

  lemma NothingToApply(ts: seq<Tool>)
    ensures PutAll(RemoveAll(ts, []), []) == ts
  {
  }

  lemma NoPendingSystemShape(
    history: seq<AgentMessage>, executable: seq<Tool>, pending: seq<AgentMessage>, now: nat)
    requires LastSystem(pending) == -1 && FirstNonSystem(pending) == 0
    ensures var changes := GetToolStateChanges(AgentCurrentTools(history + pending), executable);
      var s := WithToolChanges(SystemMessage(Text(""), None, None, None, now), changes);
      DeclareToolChanges(history, executable, pending, now)
        == if changes == ToolStateChanges([], []) then pending else [Chat(System(s))] + pending
  {
    hide AgentCurrentTools, GetToolStateChanges, WithToolChanges, LastSystem, FirstNonSystem;
    var changes := GetToolStateChanges(AgentCurrentTools(history + pending), executable);
    var s := WithToolChanges(SystemMessage(Text(""), None, None, None, now), changes);
    assert pending[..0] + [Chat(System(s))] + pending[0..] == [Chat(System(s))] + pending;
  }

  lemma NoPendingSystemSynchronises(
    history: seq<AgentMessage>, executable: seq<Tool>, pending: seq<AgentMessage>, now: nat)
    requires LastSystem(pending) < 0
    ensures SameDeclarations(
        AgentCurrentTools(history + DeclareToolChanges(history, executable, pending, now)), executable)
      <==> !Uncovers(Declared(history, pending), executable)
  {
    hide *;
    NoSystemPending(pending);
    var declared := AgentCurrentTools(history);
    var changes := GetToolStateChanges(declared, executable);
    var blank := SystemMessage(Text(""), None, None, None, now);
    BlankInFront(history, pending, WithToolChanges(blank, changes));
    NoPendingSystemShape(history, executable, pending, now);
    BaselineIsPending(history, pending);
    AgentToolsDistinct(history);
    ChangesSynchroniseExactly(declared, executable);
    if changes == ToolStateChanges([], []) {
      NothingToApply(declared);
    } else {
      ApplyWritten(declared, blank, changes);
    }
  }

  lemma BaselineIsPending(history: seq<AgentMessage>, pending: seq<AgentMessage>)
    requires LastSystem(pending) == -1
    ensures Declared(history, pending) == AgentCurrentTools(history + pending)
  {
  }

  lemma NoSystemPending(pending: seq<AgentMessage>)
    requires LastSystem(pending) < 0
    ensures LastSystem(pending) == -1 && NoSystem(pending) && FirstNonSystem(pending) == 0
  {
    hide LastSystem, NoSystem, FirstNonSystem;
    LastSystemIsLast(pending);
    assert pending[LastSystem(pending) + 1..] == pending;
    NoneInFront(pending);
  }

  /** After the declaration the transcript declares exactly the executable tools,
      if and only if the declaration uncovers none of them. */
  lemma DeclarationSynchronisesExactly(
    history: seq<AgentMessage>, executable: seq<Tool>, pending: seq<AgentMessage>, now: nat)
    ensures SameDeclarations(
        AgentCurrentTools(history + DeclareToolChanges(history, executable, pending, now)), executable)
      <==> !Uncovers(Declared(history, pending), executable)
  {
    hide *;
    if LastSystem(pending) >= 0 {
      PendingSystemSynchronises(history, executable, pending, now);
    } else {
      NoPendingSystemSynchronises(history, executable, pending, now);
    }
  }

  /** So it does whenever the names of the executable tools are distinct. */
  lemma DeclarationSynchronises(
    history: seq<AgentMessage>, executable: seq<Tool>, pending: seq<AgentMessage>, now: nat)
    requires Distinct(executable)
    ensures SameDeclarations(
      AgentCurrentTools(history + DeclareToolChanges(history, executable, pending, now)), executable)
  {
    hide *;
    DeclarationSynchronisesExactly(history, executable, pending, now);
    DistinctUncoversNothing(Declared(history, pending), executable);
  }

  /** Declaring again with nothing pending says nothing. */
  lemma SecondDeclarationIsEmpty(
    history: seq<AgentMessage>, executable: seq<Tool>, pending: seq<AgentMessage>, now: nat, later: nat)
    requires Distinct(executable)
    ensures var first := DeclareToolChanges(history, executable, pending, now);
      DeclareToolChanges(history + first, executable, [], later) == []
  {
    var first := DeclareToolChanges(history, executable, pending, now);
    DeclarationSynchronises(history, executable, pending, now);
    AgentToolsDistinct(history + first);
    SameNeedsNothing(AgentCurrentTools(history + first), executable);
    ConcatNothing(history + first);
  }

  function WithoutToolFields(m: AgentMessage): AgentMessage {
    if IsSystem(m) then Chat(System(m.message.system.(toolsAdded := None, toolsRemoved := None))) else m
  }

  /** Nothing else in the pending messages changes: besides the tool fields of
      one system message they are as they were, or one blank message is in front. */
  ghost predicate KeepsTheRest(pending: seq<AgentMessage>, last: int, result: seq<AgentMessage>, now: nat)
    requires -1 <= last < |pending|
  {
    if last >= 0 then
      && |result| == |pending|
      && (forall i :: 0 <= i < |pending| && i != last ==> result[i] == pending[i])
      && WithoutToolFields(result[last]) == WithoutToolFields(pending[last])
    else
      result == pending ||
      (result != [] && result[1..] == pending
       && WithoutToolFields(result[0]) == Chat(System(SystemMessage(Text(""), None, None, None, now))))
  }

  lemma RewriteKeeps(pending: seq<AgentMessage>, last: nat, changes: ToolStateChanges, now: nat)
    requires last < |pending| && IsSystem(pending[last])
    ensures KeepsTheRest(
      pending, last, pending[last := Chat(System(WithToolChanges(pending[last].message.system, changes)))], now)
  {
  }

  lemma RewrittenKeepsTheRest(
    history: seq<AgentMessage>, executable: seq<Tool>, pending: seq<AgentMessage>, now: nat)
    requires LastSystem(pending) >= 0
    ensures KeepsTheRest(pending, LastSystem(pending), DeclareToolChanges(history, executable, pending, now), now)
  {
    hide ChangesNeeded, LastSystem, WithToolChanges, KeepsTheRest, Added, Removed;
    Unchanged(pending, LastSystem(pending), now);
    RewriteKeeps(pending, LastSystem(pending), ChangesNeeded(history, executable, pending), now);
  }

  lemma InsertedKeepsTheRest(
    history: seq<AgentMessage>, executable: seq<Tool>, pending: seq<AgentMessage>, now: nat)
    requires LastSystem(pending) == -1 && FirstNonSystem(pending) == 0
    ensures KeepsTheRest(pending, LastSystem(pending), DeclareToolChanges(history, executable, pending, now), now)
  {
    hide ChangesNeeded, LastSystem, FirstNonSystem, WithToolChanges, KeepsTheRest, Added, Removed;
    Unchanged(pending, -1, now);
    BlankKeeps(pending, ChangesNeeded(history, executable, pending), now);
  }

  lemma DeclarationKeepsTheRest(
    history: seq<AgentMessage>, executable: seq<Tool>, pending: seq<AgentMessage>, now: nat)
    ensures KeepsTheRest(pending, LastSystem(pending), DeclareToolChanges(history, executable, pending, now), now)
  {
    hide *;
    if LastSystem(pending) >= 0 {
      RewrittenKeepsTheRest(history, executable, pending, now);
    } else {
      LastSystemIsLast(pending);
      assert pending[LastSystem(pending) + 1..] == pending;
      NoneInFront(pending);
      InsertedKeepsTheRest(history, executable, pending, now);
    }
  }

  lemma Unchanged(pending: seq<AgentMessage>, last: int, now: nat)
    requires -1 <= last < |pending|
    ensures KeepsTheRest(pending, last, pending, now)
  {
  }

  lemma BlankKeeps(pending: seq<AgentMessage>, changes: ToolStateChanges, now: nat)
    ensures var s := WithToolChanges(SystemMessage(Text(""), None, None, None, now), changes);
      KeepsTheRest(pending, -1, pending[..0] + [Chat(System(s))] + pending[0..], now)
  {
    var s := WithToolChanges(SystemMessage(Text(""), None, None, None, now), changes);
    assert pending[..0] + [Chat(System(s))] + pending[0..] == [Chat(System(s))] + pending;
  }

  lemma NoneInFront(pending: seq<AgentMessage>)
    requires NoSystem(pending)
    ensures FirstNonSystem(pending) == 0
  {
  }

  /** With two executable tools of one name the declaration can settle on the
      first, although the second is the one the names stand for and was declared. */
  lemma DuplicateNamesDoNotSynchronise(first: Tool, second: Tool, now: nat)
    requires first.name == second.name && first != second
    ensures var history := [Chat(System(SystemMessage(Text(""), None, Some([second]), None, 0)))];
      var declared := DeclareToolChanges(history, [first, second], [], now);
      && Lookup([first, second], first.name) == Some(second)
      && AgentCurrentTools(history) == [second]
      && AgentCurrentTools(history + declared) == [first]
  {
    hide LastSystem, AgentCurrentTools;
    var s := SystemMessage(Text(""), None, Some([second]), None, 0);
    var history: seq<AgentMessage> := [Chat(System(s))];
    DuplicateChanges(first, second);
    BlankInFront([], [], s);
    ConcatNothing(history);
    assert [] + (history + []) == history;
    assert AgentCurrentTools([]) == [] by { NothingDeclared(); }
    PutAllAppends([], [second]);
    ApplyWritten([], s, ToolStateChanges([second], []));
    assert WithToolChanges(s, ToolStateChanges([second], [])) == s;
    assert RemoveAll([], []) == [] && AgentCurrentTools(history) == [second];
    var changes := ToolStateChanges([first], []);
    var blank := SystemMessage(Text(""), None, None, None, now);
    var written := WithToolChanges(blank, changes);
    var none: seq<AgentMessage> := [];
    assert LastSystem(none) == -1;
    NoneInFront(none);
    assert none[..0] + [Chat(System(written))] + none[0..] == [Chat(System(written))];
    ConcatNothing(history);
    assert GetToolStateChanges(AgentCurrentTools(history + none), [first, second]) == changes;
    assert DeclareToolChanges(history, [first, second], none, now) == [Chat(System(written))];
    BlankInFront(history, none, written);
    ConcatNothing([Chat(System(written))]);
    ApplyWritten([second], blank, changes);
    PutOver(first, second);
  }

  lemma NothingDeclared()
    ensures AgentCurrentTools([]) == []
  {
  }

  lemma DuplicateChanges(first: Tool, second: Tool)
    requires first.name == second.name && first != second
    ensures Lookup([first, second], first.name) == Some(second)
    ensures GetToolStateChanges([second], [first, second]) == ToolStateChanges([first], [])
  {
    var executable := [first, second];
    assert executable[1..] == [second] && [second][1..] == [];
    LookupTail([second], first.name);
    LookupTail(executable, first.name);
    assert Undeclared([second], []) == [];
    assert Undeclared([second], [second]) == [];
    assert Stale([], executable) == [];
  }

  lemma PutOver(first: Tool, second: Tool)
    requires first.name == second.name
    ensures PutAll(RemoveAll([second], []), [first]) == [first]
  {
    assert [first][1..] == [];
    assert [second][0].name == first.name;
    assert Put([second], first) == [first];
    assert PutAll([first], []) == [first];
  }
}
