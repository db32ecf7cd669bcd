/** The agent loop: prompts, replies and tools turn by turn, with every hook, the
    provider and the scheduler free to do anything. */
module AgentLoop {
  import opened Options
  import opened Messages
  import opened DeclareTools
  import opened AgentEvents

  datatype AgentTool = AgentTool(declaration: Tool, sequential: bool)

  function Declarations(tools: seq<AgentTool>): seq<Tool> {
    seq(|tools|, i requires 0 <= i < |tools| => tools[i].declaration)
  }

  datatype ToolOutcome = ToolOutcome(content: seq<UserBlock>, isError: bool, terminate: bool)

  /** A call is answered at once (unknown tool, bad arguments, blocked, aborted) or runs. */
  datatype Preparation = Immediate(outcome: ToolOutcome) | Prepared

  /** What a tool does: some progress updates, then its outcome. */
  datatype Execution = Execution(updates: nat, outcome: ToolOutcome)

  datatype StreamEvent = Start(partial: AssistantMessage) | Update(partial: AssistantMessage)

  /** What arrives from the provider until the stream ends, fails or is cut off by
      a cancellation, and the final message it leaves. */
  datatype Stream = Stream(events: seq<StreamEvent>, final: AssistantMessage)

  datatype Decision = End | Continue

  /** The answers of everything outside, by the time they are asked. An absent
      hook is one that does nothing. */
  datatype Hooks = Hooks(
    steering: nat -> seq<AgentMessage>,
    followUp: nat -> seq<AgentMessage>,
    prepareNextTurn: nat -> seq<AgentMessage>,
    finalize: (nat, AgentMessage) -> Option<AgentMessage>,
    stream: nat -> Stream,
    prepareCall: (nat, ToolCall) -> Preparation,
    execute: (nat, ToolCall) -> Execution,
    cancelled: nat -> bool,
    finishTurn: nat -> Option<Decision>)

  function Role(m: AgentMessage): string {
    match m
    case Custom(role, _) => role
    case Chat(System(_)) => "system"
    case Chat(User(_)) => "user"
    case Chat(Assistant(_)) => "assistant"
    case Chat(Result(_)) => "toolResult"
  }

  function Starts(events: seq<StreamEvent>): nat {
    if events == [] then 0 else Starts(events[..|events| - 1]) + if events[|events| - 1].Start? then 1 else 0
  }

  /** The partial replies that are shown: from the first start on. */
  function Shown(events: seq<StreamEvent>): seq<AssistantMessage> {
    if events == [] then []
    else
      var init, last := events[..|events| - 1], events[|events| - 1];
      if last.Start? || Starts(init) > 0 then Shown(init) + [last.partial] else Shown(init)
  }

  /** A finalized reply, if it is one. */
  function AsReply(m: Option<AgentMessage>): Option<AssistantMessage> {
    match m
    case Some(Chat(Assistant(a))) => Some(a)
    case _ => None
  }

  function AsResult(m: Option<AgentMessage>): Option<ToolResult> {
    match m
    case Some(Chat(Result(r))) => Some(r)
    case _ => None
  }

  predicate ReplyFailed(a: AssistantMessage) { a.stopReason.Error? || a.stopReason.Aborted? }

  /** The messages a turn starts with: what its preparation brings and what is
      queued, the queue asked once more if it was empty after a turn. */
  function Due(hooks: Hooks, afterATurn: bool, queued: seq<AgentMessage>, tick: nat): seq<AgentMessage> {
    if !afterATurn then queued
    else hooks.prepareNextTurn(tick) + if queued == [] then hooks.steering(tick + 1) else queued
  }

  function DueAt(afterATurn: bool, queued: seq<AgentMessage>, tick: nat): nat {
    if !afterATurn then tick else if queued == [] then tick + 2 else tick + 1
  }

  lemma DueLater(afterATurn: bool, queued: seq<AgentMessage>, tick: nat)
    ensures DueAt(afterATurn, queued, tick) >= tick
  {
  }

  /** The hook may rewrite a message but not change its role. */
  function Finalized(hooks: Hooks, tick: nat, m: AgentMessage): (r: Option<AgentMessage>)
    ensures r.Some? ==> Role(r.value) == Role(m)
  {
    match hooks.finalize(tick, m)
    case None => None
    case Some(f) => if Role(f) == Role(m) then Some(f) else None
  }

  /** The hook leaves nothing usable of the message: it fails or turns it into
      another kind. */
  predicate Refuses(hooks: Hooks, tick: nat, m: AgentMessage) {
    match m
    case Chat(Assistant(_)) => AsReply(Finalized(hooks, tick, m)).None?
    case Chat(Result(_)) => AsResult(Finalized(hooks, tick, m)).None?
    case _ => Finalized(hooks, tick, m).None?
  }

  /** A message was refused between two points in time. */
  ghost predicate Refused(hooks: Hooks, from: nat, to: nat) {
    exists k: nat, m :: from <= k < to && Refuses(hooks, k, m)
  }

  lemma RefusedWidens(hooks: Hooks, from: nat, start: nat, to: nat)
    requires from <= start && Refused(hooks, start, to)
    ensures Refused(hooks, from, to)
  {
    var k: nat, m :| start <= k < to && Refuses(hooks, k, m);
    assert Refuses(hooks, k, m);
  }

  function Terminates(outcomes: seq<ToolOutcome>): bool {
    outcomes != [] && forall i :: 0 <= i < |outcomes| ==> outcomes[i].terminate
  }

  function TruncatedOutcome(name: string): ToolOutcome {
    ToolOutcome(
      [UserText(
         "Tool call \"" + name + "\" was not executed: the response hit the output token limit, so its arguments"
         + " may be truncated. Re-issue the tool call with complete arguments.", None)],
      true, false)
  }

  lemma TruncatedGoesOn(calls: seq<ToolCall>, outcomes: seq<ToolOutcome>)
    requires |outcomes| <= |calls|
    requires forall i :: 0 <= i < |outcomes| ==> outcomes[i] == TruncatedOutcome(calls[i].name)
    ensures !Terminates(outcomes)
  {
    if outcomes != [] {
      assert !outcomes[0].terminate;
    }
  }

  const ABORTED := ToolOutcome([UserText("Operation aborted", None)], true, false)

  function ResultMessage(c: ToolCall, o: ToolOutcome, now: nat): ToolResult {
    ToolResult(c.id, c.name, o.content, o.isError, now)
  }

  /** The result message of an outcome: the hook may rewrite it, but it keeps
      answering its call. */
  function FinalizedAnswer(hooks: Hooks, tick: nat, c: ToolCall, o: ToolOutcome): (r: Option<ToolResult>)
    ensures r.Some? ==> r.value.toolCallId == c.id
  {
    match AsResult(Finalized(hooks, tick, Answer(ResultMessage(c, o, tick))))
    case Some(r) => Some(r.(toolCallId := c.id))
    case None => None
  }

  /** A call of a parallel batch on its way. */
  datatype Task =
    | Waiting(call: ToolCall)
    | Running(call: ToolCall, updates: nat, outcome: ToolOutcome)
    | Finished(call: ToolCall, outcome: ToolOutcome)

  function Ids(calls: seq<ToolCall>): multiset<string> {
    if calls == [] then multiset{} else Ids(calls[..|calls| - 1]) + multiset{calls[|calls| - 1].id}
  }

  function Unfinished(tasks: seq<Task>): multiset<string> {
    if tasks == [] then multiset{}
    else
      var last := tasks[|tasks| - 1];
      Unfinished(tasks[..|tasks| - 1]) + LeftOf(last)
  }

  function FinishedIds(tasks: seq<Task>): multiset<string> {
    if tasks == [] then multiset{}
    else
      var last := tasks[|tasks| - 1];
      FinishedIds(tasks[..|tasks| - 1]) + DoneOf(last)
  }

  function TaskWork(t: Task): nat {
    match t
    case Waiting(_) => 1
    case Running(_, updates, _) => updates + 1
    case Finished(_, _) => 0
  }

  function LeftOf(t: Task): multiset<string> { if t.Finished? then multiset{} else multiset{t.call.id} }
  function DoneOf(t: Task): multiset<string> { if t.Finished? then multiset{t.call.id} else multiset{} }

  function Sum(ns: seq<nat>): nat {
    if ns == [] then 0 else Sum(ns[..|ns| - 1]) + ns[|ns| - 1]
  }

  lemma {:induction false} SumUpdate(ns: seq<nat>, k: nat, n: nat)
    requires k < |ns|
    ensures Sum(ns[k := n]) == Sum(ns) - ns[k] + n
    decreases |ns|
  {
    var last := |ns| - 1;
    if k == last {
      assert ns[k := n][..last] == ns[..last];
    } else {
      SumUpdate(ns[..last], k, n);
      assert ns[k := n][..last] == ns[..last][k := n];
    }
  }

  /** What is left to do, and how many tasks have not begun. */
  function Work(tasks: seq<Task>): nat { Sum(seq(|tasks|, i requires 0 <= i < |tasks| => TaskWork(tasks[i]))) }

  function NotBegun(tasks: seq<Task>): nat {
    Sum(seq(|tasks|, i requires 0 <= i < |tasks| => if tasks[i].Waiting? then 1 else 0))
  }

  lemma TaskProgress(tasks: seq<Task>, k: nat, t: Task)
    requires k < |tasks|
    ensures Work(tasks[k := t]) == Work(tasks) - TaskWork(tasks[k]) + TaskWork(t)
    ensures NotBegun(tasks[k := t])
      == NotBegun(tasks) - (if tasks[k].Waiting? then 1 else 0) + (if t.Waiting? then 1 else 0)
  {
    var next := tasks[k := t];
    var works := seq(|tasks|, i requires 0 <= i < |tasks| => TaskWork(tasks[i]));
    var waits := seq(|tasks|, i requires 0 <= i < |tasks| => if tasks[i].Waiting? then 1 else 0);
    SumUpdate(works, k, TaskWork(t));
    SumUpdate(waits, k, if t.Waiting? then 1 else 0);
    assert seq(|next|, i requires 0 <= i < |next| => TaskWork(next[i])) == works[k := TaskWork(t)];
    assert seq(|next|, i requires 0 <= i < |next| => if next[i].Waiting? then 1 else 0)
      == waits[k := if t.Waiting? then 1 else 0];
  }

  lemma MiddleOut(a: multiset<string>, b: multiset<string>, id: string)
    ensures id in a + multiset{id} + b
    ensures a + multiset{id} + b - multiset{id} == a + multiset{} + b
    ensures a + multiset{} + b + multiset{id} == a + multiset{id} + b
  {
  }

  lemma Exchanged(a: multiset<string>, b: multiset<string>, c: multiset<string>)
    ensures a + (b + c) == a + b + c
  {
  }

  lemma {:induction false} TasksConcat(a: seq<Task>, b: seq<Task>)
    ensures Unfinished(a + b) == Unfinished(a) + Unfinished(b)
    ensures FinishedIds(a + b) == FinishedIds(a) + FinishedIds(b)
    decreases |b|
  {
    hide LeftOf, DoneOf;
    if b == [] {
      assert a + b == a;
    } else {
      var init, last := b[..|b| - 1], b[|b| - 1];
      assert (a + b)[..|a + b| - 1] == a + init;
      TasksConcat(a, init);
      Exchanged(Unfinished(a), Unfinished(init), LeftOf(last));
      Exchanged(FinishedIds(a), FinishedIds(init), DoneOf(last));
    }
  }

  lemma TasksAround(a: seq<Task>, t: Task, b: seq<Task>)
    ensures Unfinished(a + [t] + b) == Unfinished(a) + LeftOf(t) + Unfinished(b)
    ensures FinishedIds(a + [t] + b) == FinishedIds(a) + DoneOf(t) + FinishedIds(b)
  {
    hide Unfinished, FinishedIds, LeftOf, DoneOf;
    TasksConcat(a + [t], b);
    TasksPush(a, t);
  }

  /** A task that goes on stays unfinished; one that finishes changes sides. */
  lemma UpdateTask(tasks: seq<Task>, k: nat, t: Task)
    requires k < |tasks| && !tasks[k].Finished? && t.call == tasks[k].call
    ensures var next := tasks[k := t];
      var id := multiset{t.call.id};
      && t.call.id in Unfinished(tasks)
      && Unfinished(next) == (if t.Finished? then Unfinished(tasks) - id else Unfinished(tasks))
      && FinishedIds(next) == (if t.Finished? then FinishedIds(tasks) + id else FinishedIds(tasks))
  {
    hide Unfinished, FinishedIds;
    var a, b := tasks[..k], tasks[k + 1..];
    assert tasks == a + [tasks[k]] + b && tasks[k := t] == a + [t] + b;
    TasksAround(a, tasks[k], b);
    TasksAround(a, t, b);
    MiddleOut(Unfinished(a), Unfinished(b), t.call.id);
    MiddleOut(FinishedIds(a), FinishedIds(b), t.call.id);
  }

  lemma {:induction false} AllFinished(tasks: seq<Task>)
    ensures (Unfinished(tasks) == multiset{}) <==> forall k :: 0 <= k < |tasks| ==> tasks[k].Finished?
  {
    if tasks != [] {
      AllFinished(tasks[..|tasks| - 1]);
      assert forall k :: 0 <= k < |tasks| - 1 ==> tasks[..|tasks| - 1][k] == tasks[k];
      var last := tasks[|tasks| - 1];
      if !last.Finished? {
        assert last.call.id in Unfinished(tasks);
      }
    }
  }

  lemma TasksPush(tasks: seq<Task>, t: Task)
    ensures Unfinished(tasks + [t]) == Unfinished(tasks) + LeftOf(t)
    ensures FinishedIds(tasks + [t]) == FinishedIds(tasks) + DoneOf(t)
  {
    assert (tasks + [t])[..|tasks|] == tasks;
  }

  lemma {:induction false} FinishedAre(tasks: seq<Task>, calls: seq<ToolCall>)
    requires |tasks| <= |calls| && forall k :: 0 <= k < |tasks| ==> tasks[k].Finished? && tasks[k].call == calls[k]
    ensures FinishedIds(tasks) == Ids(calls[..|tasks|])
    decreases |tasks|
  {
    if tasks != [] {
      var n := |tasks| - 1;
      FinishedAre(tasks[..n], calls);
      assert calls[..|tasks|][..n] == calls[..n];
    } else {
      assert calls[..0] == [];
    }
  }

  /** The ids of a stretch of calls lose the first one. */
  lemma {:induction false} IdsDropFirst(calls: seq<ToolCall>)
    requires calls != []
    ensures Ids(calls) == multiset{calls[0].id} + Ids(calls[1..])
    decreases |calls|
  {
    var n := |calls| - 1;
    if n == 0 {
      assert calls[..0] == [] && calls[1..] == [];
    } else {
      IdsDropFirst(calls[..n]);
      assert calls[..n][1..] == calls[1..][..n - 1] && calls[1..][n - 1] == calls[n];
      Exchanged(multiset{calls[0].id}, Ids(calls[1..][..n - 1]), multiset{calls[n].id});
    }
  }
}
