/** The stateful agent: it mirrors the events of the active run into its state, and
    closes the run for its listeners when the run breaks off. */
module Agent {
  import opened Options
  import opened Seqs
  import opened Messages
  import opened DeclareTools
  import opened AgentEvents

  // ---------------------------------------------------------------------------
  // The frame of a run as its listeners see it
  // ---------------------------------------------------------------------------

  /** Has the run started, is a turn open, is a message open, is the run over. */
  datatype Frame = Frame(started: bool, turn: bool, message: bool, over: bool) | Off

  const FRESH := Frame(false, false, false, false)

  function FrameStep(f: Frame, e: Event): Frame {
    match f
    case Off => Off
    case Frame(started, turn, message, over) =>
      if over then Off
      else match e
        case AgentStart => if !started then Frame(true, turn, message, over) else Off
        case TurnStart => if started && !turn && !message then Frame(started, true, message, over) else Off
        case TurnEnd(_, _) => if turn && !message then Frame(started, false, message, over) else Off
        case MessageStart(_) => if turn && !message then Frame(started, turn, true, over) else Off
        case MessageUpdate(_) => if turn && message then f else Off
        case MessageEnd(_) => if turn && message then Frame(started, turn, false, over) else Off
        case AgentEnd(_) => if started then Frame(started, turn, message, true) else Off
        case ToolStart(_, _) => if turn && !message then f else Off
        case ToolUpdate(_) => if turn && !message then f else Off
        case ToolEnd(_, _) => if turn && !message then f else Off
  }

  function FrameOf(f: Frame, es: seq<Event>): Frame {
    if es == [] then f else FrameStep(FrameOf(f, es[..|es| - 1]), es[|es| - 1])
  }

  lemma FramePush(f: Frame, es: seq<Event>, e: Event)
    ensures FrameOf(f, es + [e]) == FrameStep(FrameOf(f, es), e)
  {
    assert (es + [e])[..|es|] == es;
  }

  lemma {:induction false} FrameConcat(f: Frame, a: seq<Event>, b: seq<Event>)
    ensures FrameOf(f, a + b) == FrameOf(FrameOf(f, a), b)
    decreases |b|
  {
    if b == [] {
      assert a + b == a;
    } else {
      assert (a + b)[..|a + b| - 1] == a + b[..|b| - 1];
      FrameConcat(f, a, b[..|b| - 1]);
    }
  }

  lemma FrameOne(f: Frame, e: Event)
    ensures FrameOf(f, [e]) == FrameStep(f, e)
  {
    assert [e][..0] == [];
  }

  const BETWEEN := Frame(true, false, false, false)
  const IN_TURN := Frame(true, true, false, false)
  const IN_MESSAGE := Frame(true, true, true, false)

  lemma {:induction false} PromptsFrame(ps: seq<Prompt>)
    ensures FrameOf(IN_TURN, PromptEvents(ps)) == IN_TURN
  {
    if ps != [] {
      var p, before := ps[|ps| - 1], PromptEvents(ps[..|ps| - 1]);
      PromptsFrame(ps[..|ps| - 1]);
      FramePush(IN_TURN, before, MessageStart(p.given));
      FramePush(IN_TURN, before + [MessageStart(p.given)], MessageEnd(p.finalized));
      assert PromptEvents(ps) == before + [MessageStart(p.given)] + [MessageEnd(p.finalized)];
    } else {
      assert PromptEvents(ps) == [];
    }
  }

  lemma {:induction false} UpdatesFrame(partials: seq<AssistantMessage>)
    ensures FrameOf(IN_MESSAGE, Updates(partials)) == IN_MESSAGE
  {
    if partials != [] {
      var before := Updates(partials[..|partials| - 1]);
      UpdatesFrame(partials[..|partials| - 1]);
      FramePush(IN_MESSAGE, before, MessageUpdate(Reply(partials[|partials| - 1])));
    } else {
      assert Updates(partials) == [];
    }
  }

  lemma ReplyFrame(first: AssistantMessage, partials: seq<AssistantMessage>, reply: AssistantMessage)
    ensures FrameOf(IN_TURN, [MessageStart(Reply(first))] + Updates(partials)) == IN_MESSAGE
    ensures FrameOf(IN_TURN, ReplyEvents(first, partials, reply)) == IN_TURN
  {
    hide Updates, FrameOf;
    var opening := [MessageStart(Reply(first))];
    FrameOne(IN_TURN, MessageStart(Reply(first)));
    UpdatesFrame(partials);
    FrameConcat(IN_TURN, opening, Updates(partials));
    FramePush(IN_TURN, opening + Updates(partials), MessageEnd(Reply(reply)));
  }

  /** A batch keeps the turn open; its open result message is the open message. */
  ghost predicate BatchFramed(b: Batch, f: Frame) {
    b.Batch? ==> f == if b.open.Some? then IN_MESSAGE else IN_TURN
  }

  lemma BatchFrameStep(calls: seq<ToolCall>, b: Batch, f: Frame, e: Event)
    requires BatchFramed(b, f)
    ensures BatchFramed(BatchStep(calls, b, e), FrameStep(f, e))
  {
  }

  lemma {:induction false} BatchFrame(calls: seq<ToolCall>, es: seq<Event>)
    ensures BatchFramed(ReadBatch(calls, es), FrameOf(IN_TURN, es))
  {
    if es != [] {
      var init := es[..|es| - 1];
      BatchFrame(calls, init);
      BatchFrameStep(calls, ReadBatch(calls, init), FrameOf(IN_TURN, init), es[|es| - 1]);
    }
  }

  lemma TurnFrame(t: Turn)
    requires WholeTurn(t)
    ensures FrameOf(BETWEEN, TurnEvents(t)) == BETWEEN
  {
    hide PromptEvents, ReplyEvents, FrameOf, ReadBatch;
    var a, b := [TurnStart] + PromptEvents(t.prompts), ReplyEvents(t.first, t.partials, t.reply);
    FrameOne(BETWEEN, TurnStart);
    PromptsFrame(t.prompts);
    FrameConcat(BETWEEN, [TurnStart], PromptEvents(t.prompts));
    ReplyFrame(t.first, t.partials, t.reply);
    FrameConcat(BETWEEN, a, b);
    BatchFrame(CallsOf(t.reply.content), t.batch);
    FrameConcat(BETWEEN, a + b, t.batch);
    FramePush(BETWEEN, a + b + t.batch, TurnEnd(Reply(t.reply), t.results));
  }

  lemma {:induction false} TurnsFrame(ts: seq<Turn>)
    requires WholeTurns(ts)
    ensures FrameOf(BETWEEN, TurnsEvents(ts)) == BETWEEN
  {
    if ts != [] {
      TurnsFrame(ts[..|ts| - 1]);
      TurnFrame(ts[|ts| - 1]);
      FrameConcat(BETWEEN, TurnsEvents(ts[..|ts| - 1]), TurnEvents(ts[|ts| - 1]));
    } else {
      assert TurnsEvents(ts) == [];
    }
  }

  lemma CutFrame(cut: Cut)
    requires GoodCut(cut)
    ensures FrameOf(IN_TURN, CutEvents(cut)) in {IN_TURN, IN_MESSAGE}
  {
    hide PromptEvents, ReplyEvents, Updates, FrameOf, ReadBatch;
    PromptsFrame(cut.prompts);
    match cut
    case InPrompts(ps, given) =>
      FramePush(IN_TURN, PromptEvents(ps), MessageStart(given));
    case InReply(ps, first, partials) =>
      ReplyFrame(first, partials, first);
      FrameConcat(IN_TURN, PromptEvents(ps), [MessageStart(Reply(first))] + Updates(partials));
    case InTools(ps, first, partials, reply, batch) =>
      ReplyFrame(first, partials, reply);
      FrameConcat(IN_TURN, PromptEvents(ps), ReplyEvents(first, partials, reply));
      BatchFrame(CallsOf(reply.content), batch);
      FrameConcat(IN_TURN, PromptEvents(ps) + ReplyEvents(first, partials, reply), batch);
  }

  /** Every run of the loop keeps the frame, whether it completed or failed. */
  lemma RunsAreFramed(es: seq<Event>, ts: seq<Turn>, cut: Cut, messages: seq<AgentMessage>)
    requires GoodRun(es, ts, messages) || CutRun(es, ts, cut, messages)
    ensures GoodRun(es, ts, messages) ==> FrameOf(FRESH, es) == Frame(true, false, false, true)
    ensures FrameOf(FRESH, es).Frame? && FrameOf(FRESH, es).over
  {
    hide TurnsEvents, CutEvents, FrameOf, WholeTurns, GoodCut;
    FrameOne(FRESH, AgentStart);
    TurnsFrame(ts);
    FrameConcat(FRESH, [AgentStart], TurnsEvents(ts));
    if GoodRun(es, ts, messages) {
      FramePush(FRESH, [AgentStart] + TurnsEvents(ts), AgentEnd(messages));
    }
    if CutRun(es, ts, cut, messages) {
      CutFrame(cut);
      FrameOne(BETWEEN, TurnStart);
      FrameConcat(BETWEEN, [TurnStart], CutEvents(cut));
      FrameConcat(FRESH, [AgentStart] + TurnsEvents(ts), [TurnStart] + CutEvents(cut));
      FramePush(FRESH, [AgentStart] + TurnsEvents(ts) + ([TurnStart] + CutEvents(cut)), AgentEnd(messages));
    }
  }

  /** So does every prefix of such a run. */
  lemma {:induction false} PrefixIsFramed(f: Frame, es: seq<Event>, n: nat)
    requires n <= |es| && FrameOf(f, es).Frame?
    ensures FrameOf(f, es[..n]).Frame? && (n < |es| ==> !FrameOf(f, es[..n]).over)
    decreases |es| - n
  {
    if n == |es| {
      assert es[..n] == es;
    } else {
      PrefixIsFramed(f, es, n + 1);
      assert es[..n + 1] == es[..n] + [es[n]];
      FramePush(f, es[..n], es[n]);
    }
  }

  /** What the frame says about the counts. */
  ghost predicate Agrees(f: Frame, w: Balance) {
    f.Frame? ==>
      && w.runStarts == (if f.started then 1 else 0) && w.runEnds == (if f.over then 1 else 0)
      && w.turnStarts == w.turnEnds + (if f.turn then 1 else 0)
      && w.starts == w.ends + (if f.message then 1 else 0)
  }

  lemma StepAgrees(f: Frame, w: Balance, e: Event)
    requires Agrees(f, w)
    ensures Agrees(FrameStep(f, e), Add(w, Weigh(e)))
  {
  }

  lemma {:induction false} FrameAgrees(es: seq<Event>)
    ensures Agrees(FrameOf(FRESH, es), Weight(es))
  {
    hide FrameStep, Add, Weigh;
    if es != [] {
      FrameAgrees(es[..|es| - 1]);
      StepAgrees(FrameOf(FRESH, es[..|es| - 1]), Weight(es[..|es| - 1]), es[|es| - 1]);
    }
  }

  // ---------------------------------------------------------------------------
  // Tool calls in progress
  // ---------------------------------------------------------------------------

  function PendingStep(calls: set<string>, e: Event): set<string> {
    match e
    case ToolStart(id, _) => calls + {id}
    case ToolEnd(id, _) => calls - {id}
    case _ => calls
  }

  /** The ids shown as in progress. An id that several calls share is shown until
      the first of them ends. */
  function PendingCalls(calls: set<string>, es: seq<Event>): set<string> {
    if es == [] then calls else PendingStep(PendingCalls(calls, es[..|es| - 1]), es[|es| - 1])
  }

  lemma PendingPush(calls: set<string>, es: seq<Event>, e: Event)
    ensures PendingCalls(calls, es + [e]) == PendingStep(PendingCalls(calls, es), e)
  {
    assert (es + [e])[..|es|] == es;
  }

  lemma {:induction false} PendingConcat(calls: set<string>, a: seq<Event>, b: seq<Event>)
    ensures PendingCalls(calls, a + b) == PendingCalls(PendingCalls(calls, a), b)
    decreases |b|
  {
    if b == [] {
      assert a + b == a;
    } else {
      assert (a + b)[..|a + b| - 1] == a + b[..|b| - 1];
      PendingConcat(calls, a, b[..|b| - 1]);
    }
  }

  lemma {:induction false} PromptsPending(ps: seq<Prompt>)
    ensures PendingCalls({}, PromptEvents(ps)) == {}
  {
    if ps != [] {
      var p, before := ps[|ps| - 1], PromptEvents(ps[..|ps| - 1]);
      PromptsPending(ps[..|ps| - 1]);
      PendingPush({}, before, MessageStart(p.given));
      PendingPush({}, before + [MessageStart(p.given)], MessageEnd(p.finalized));
      assert PromptEvents(ps) == before + [MessageStart(p.given)] + [MessageEnd(p.finalized)];
    } else {
      assert PromptEvents(ps) == [];
    }
  }

  lemma {:induction false} UpdatesPending(partials: seq<AssistantMessage>)
    ensures PendingCalls({}, Updates(partials)) == {}
  {
    if partials != [] {
      UpdatesPending(partials[..|partials| - 1]);
      PendingPush({}, Updates(partials[..|partials| - 1]), MessageUpdate(Reply(partials[|partials| - 1])));
    } else {
      assert Updates(partials) == [];
    }
  }

  /** In a batch only calls that run are shown. */
  lemma {:induction false} BatchPending(calls: seq<ToolCall>, es: seq<Event>)
    requires ReadBatch(calls, es).Batch?
    ensures forall id :: id in PendingCalls({}, es) ==> id in ReadBatch(calls, es).running
  {
    if es != [] {
      var init := es[..|es| - 1];
      WrongStays(calls, ReadBatch(calls, init), es[|es| - 1]);
      BatchPending(calls, init);
    }
  }

  lemma TurnPending(t: Turn)
    requires WholeTurn(t)
    ensures PendingCalls({}, TurnEvents(t)) == {}
  {
    hide PromptEvents, Updates, PendingCalls, ReadBatch;
    var a := [TurnStart] + PromptEvents(t.prompts);
    var opening := [MessageStart(Reply(t.first))];
    var b := ReplyEvents(t.first, t.partials, t.reply);
    PendingOne(TurnStart);
    PromptsPending(t.prompts);
    PendingConcat({}, [TurnStart], PromptEvents(t.prompts));
    PendingOne(MessageStart(Reply(t.first)));
    UpdatesPending(t.partials);
    PendingConcat({}, opening, Updates(t.partials));
    PendingPush({}, opening + Updates(t.partials), MessageEnd(Reply(t.reply)));
    PendingConcat({}, a, b);
    BatchPending(CallsOf(t.reply.content), t.batch);
    assert PendingCalls({}, t.batch) == {};
    PendingConcat({}, a + b, t.batch);
    PendingPush({}, a + b + t.batch, TurnEnd(Reply(t.reply), t.results));
  }

  lemma PendingOne(e: Event)
    requires !e.ToolStart? && !e.ToolEnd?
    ensures PendingCalls({}, [e]) == {}
  {
    assert [e][..0] == [];
  }

  lemma {:induction false} TurnsPending(ts: seq<Turn>)
    requires WholeTurns(ts)
    ensures PendingCalls({}, TurnsEvents(ts)) == {}
  {
    if ts != [] {
      TurnsPending(ts[..|ts| - 1]);
      TurnPending(ts[|ts| - 1]);
      PendingConcat({}, TurnsEvents(ts[..|ts| - 1]), TurnEvents(ts[|ts| - 1]));
    } else {
      assert TurnsEvents(ts) == [];
    }
  }

  /** A completed run leaves no call in progress, before anything is cleared. */
  lemma GoodRunLeavesNoCall(es: seq<Event>, ts: seq<Turn>, messages: seq<AgentMessage>)
    requires GoodRun(es, ts, messages)
    ensures PendingCalls({}, es) == {}
  {
    hide TurnsEvents, PendingCalls, WholeTurns;
    PendingOne(AgentStart);
    TurnsPending(ts);
    PendingConcat({}, [AgentStart], TurnsEvents(ts));
    PendingPush({}, [AgentStart] + TurnsEvents(ts), AgentEnd(messages));
  }

  // ---------------------------------------------------------------------------
  // Closing a run that broke off
  // ---------------------------------------------------------------------------

  function Closing(f: Frame, failure: AgentMessage): seq<Event>
    requires f.Frame?
  {
    (if !f.started then [AgentStart] else [])
    + (if !f.turn then [TurnStart] else [])
    + (if !f.message then [MessageStart(failure)] else [])
    + [MessageEnd(failure), TurnEnd(failure, []), AgentEnd([failure])]
  }

  /** Wherever a run breaks off, the closing events make it one with exactly one
      start and one end, every turn and every message closed, and the failure as
      its last message. */
  lemma ClosingCompletes(es: seq<Event>, failure: AgentMessage)
    requires FrameOf(FRESH, es).Frame? && !FrameOf(FRESH, es).over
    ensures var all := es + Closing(FrameOf(FRESH, es), failure);
      && FrameOf(FRESH, all) == Frame(true, false, false, true)
      && Ended(all) == Ended(es) + [failure]
      && var w := Weight(all);
         w.runStarts == 1 == w.runEnds && w.turnStarts == w.turnEnds && w.starts == w.ends
  {
    hide FrameOf, Weight, Ended;
    var f := FrameOf(FRESH, es);
    var a := if !f.started then es + [AgentStart] else es;
    FramePush(FRESH, es, AgentStart);
    EndedPush(es, AgentStart);
    assert f.turn || f.message ==> f.started by { FrameNested(es); }
    assert f.message ==> f.turn by { FrameNested(es); }
    var b := if !f.turn then a + [TurnStart] else a;
    FramePush(FRESH, a, TurnStart);
    EndedPush(a, TurnStart);
    var c := if !f.message then b + [MessageStart(failure)] else b;
    FramePush(FRESH, b, MessageStart(failure));
    EndedPush(b, MessageStart(failure));
    var d := c + [MessageEnd(failure)];
    FramePush(FRESH, c, MessageEnd(failure));
    EndedPush(c, MessageEnd(failure));
    FramePush(FRESH, d, TurnEnd(failure, []));
    EndedPush(d, TurnEnd(failure, []));
    FramePush(FRESH, d + [TurnEnd(failure, [])], AgentEnd([failure]));
    EndedPush(d + [TurnEnd(failure, [])], AgentEnd([failure]));
    var all := es + Closing(f, failure);
    assert all == d + [TurnEnd(failure, [])] + [AgentEnd([failure])];
    FrameAgrees(all);
  }

  lemma {:induction false} FrameNested(es: seq<Event>)
    ensures var f := FrameOf(FRESH, es); f.Frame? ==> (f.message ==> f.turn) && (f.turn ==> f.started)
  {
    if es != [] {
      FrameNested(es[..|es| - 1]);
    }
  }

  // ---------------------------------------------------------------------------
  // The agent
  // ---------------------------------------------------------------------------

  datatype ActiveRun = ActiveRun(id: nat, sawAgentStart: bool, turnOpen: bool, sawAgentEnd: bool)

  class Agent {
    var messages: seq<AgentMessage>
    var streamingMessage: Option<AgentMessage>
    var pendingToolCalls: set<string>
    var isStreaming: bool
    var activeRun: Option<ActiveRun>
    var nextRunId: nat

    /** What the listeners saw of the active run, and the messages before it. */
    ghost var log: seq<Event>
    ghost var before: seq<AgentMessage>

    /** The flags and the streaming message tell where the run stands, and the
        state has exactly the messages the run finished. */
    ghost predicate Inv()
      reads this
    {
      && (activeRun.Some? ==> activeRun.value.id < nextRunId)
      && (activeRun.None? ==> !isStreaming && streamingMessage.None? && pendingToolCalls == {})
      && (activeRun.Some? ==>
            && messages == before + Ended(log) && pendingToolCalls == PendingCalls({}, log)
            && Mirrors(activeRun.value, FrameOf(FRESH, log)))
    }

    ghost predicate Mirrors(run: ActiveRun, f: Frame)
      reads this`streamingMessage
    {
      f.Frame? ==>
        && run.sawAgentStart == f.started && run.turnOpen == f.turn && run.sawAgentEnd == f.over
        && streamingMessage.Some? == (f.message && !f.over)
    }

    constructor (messages: seq<AgentMessage>)
      ensures Inv() && this.messages == messages && activeRun.None?
    {
      this.messages, streamingMessage, pendingToolCalls, isStreaming := messages, None, {}, false;
      activeRun, nextRunId, log, before := None, 0, [], messages;
    }

    /** Starting a run: refused while another one is active. */
    method BeginRun() returns (id: Option<nat>)
      requires Inv()
      modifies this
      ensures Inv() && messages == old(messages)
      ensures id.None? <==> old(activeRun).Some?
      ensures id.None? ==> activeRun == old(activeRun) && log == old(log) && before == old(before)
      ensures id.Some? ==>
        && activeRun == Some(ActiveRun(id.value, false, false, false)) && log == [] && before == messages
        && id.value >= old(nextRunId)
    {
      var runId := nextRunId;
      nextRunId := nextRunId + 1;
      if activeRun.Some? {
        return None;
      }
      activeRun := Some(ActiveRun(runId, false, false, false));
      isStreaming, streamingMessage := true, None;
      log, before := [], messages;
      ConcatNothing(messages);
      id := Some(runId);
    }

    /** An event of the active run enters the state; one of any other run is dropped. */
    method ProcessEvent(runId: nat, e: Event)
      requires Inv()
      modifies this
      ensures Inv()
      ensures nextRunId == old(nextRunId) && before == old(before)
      ensures activeRun.Some? == old(activeRun).Some?
        && (activeRun.Some? ==> activeRun.value.id == old(activeRun).value.id)
      ensures old(activeRun).Some? && old(activeRun).value.id == runId ==>
        log == old(log) + [e] && messages == old(messages) + (if e.MessageEnd? then [e.message] else [])
      ensures !(old(activeRun).Some? && old(activeRun).value.id == runId) ==>
        && log == old(log) && messages == old(messages) && activeRun == old(activeRun)
        && streamingMessage == old(streamingMessage) && pendingToolCalls == old(pendingToolCalls)
    {
      if activeRun.None? || activeRun.value.id != runId {
        return;
      }
      FramePush(FRESH, log, e);
      EndedPush(log, e);
      PendingPush({}, log, e);
      ConcatNothing(messages);
      FrameNested(log);
      log := log + [e];
      var run := activeRun.value;
      match e {
        case AgentStart => activeRun := Some(run.(sawAgentStart := true));
        case TurnStart => activeRun := Some(run.(turnOpen := true));
        case TurnEnd(_, _) => activeRun := Some(run.(turnOpen := false));
        case AgentEnd(_) =>
          activeRun := Some(run.(sawAgentEnd := true));
          streamingMessage := None;
        case MessageStart(m) => streamingMessage := Some(m);
        case MessageUpdate(m) => streamingMessage := Some(m);
        case MessageEnd(m) =>
          streamingMessage := None;
          ConcatAssociates(before, Ended(old(log)), [m]);
          messages := messages + [m];
        case ToolStart(id, _) => pendingToolCalls := pendingToolCalls + {id};
        case ToolEnd(id, _) => pendingToolCalls := pendingToolCalls - {id};
        case ToolUpdate(_) =>
      }
    }

    /** The run failed: unless its end was seen, its listeners get the events that
        close it, with a failure message as the last one. */
    method HandleRunFailure(runId: nat, failure: AgentMessage)
      requires Inv() && activeRun.Some? && activeRun.value.id == runId
      requires FrameOf(FRESH, log).Frame?
      modifies this
      ensures Inv() && activeRun.Some? && activeRun.value.id == runId && nextRunId == old(nextRunId)
      ensures before == old(before)
      ensures FrameOf(FRESH, log).Frame? && FrameOf(FRESH, log).over
      ensures if FrameOf(FRESH, old(log)).over then log == old(log) && messages == old(messages)
        else log == old(log) + Closing(FrameOf(FRESH, old(log)), failure) && messages == old(messages) + [failure]
    {
      hide FrameOf, FrameStep, Ended, Closing;
      var run := activeRun.value;
      if run.sawAgentEnd {
        return;
      }
      var hasOpenMessage := streamingMessage.Some?;
      ghost var f, log0 := FrameOf(FRESH, log), log;
      ClosingCompletes(log, failure);
      ClosingIs(log, f, failure);
      ConcatNothing(messages);
      ConcatNothing(log0);
      if !run.sawAgentStart {
        ProcessEvent(runId, AgentStart);
      }
      ghost var log1 := log0 + if !f.started then [AgentStart] else [];
      assert log == log1;
      ConcatNothing(log1);
      if !run.turnOpen {
        ProcessEvent(runId, TurnStart);
      }
      ghost var log2 := log1 + if !f.turn then [TurnStart] else [];
      assert log == log2;
      ConcatNothing(log2);
      if !hasOpenMessage {
        ProcessEvent(runId, MessageStart(failure));
      }
      assert log == log2 + if !f.message then [MessageStart(failure)] else [];
      CloseTurn(runId, failure);
    }

    method CloseTurn(runId: nat, failure: AgentMessage)
      requires Inv() && activeRun.Some? && activeRun.value.id == runId
      modifies this
      ensures Inv() && activeRun.Some? && activeRun.value.id == runId && nextRunId == old(nextRunId)
      ensures before == old(before) && messages == old(messages) + [failure]
      ensures log == old(log) + [MessageEnd(failure)] + [TurnEnd(failure, [])] + [AgentEnd([failure])]
    {
      hide Inv;
      ProcessEvent(runId, MessageEnd(failure));
      ConcatNothing(messages);
      ProcessEvent(runId, TurnEnd(failure, []));
      ProcessEvent(runId, AgentEnd([failure]));
    }

    /** The run is over; a second call, or one for another run, does nothing. */
    method FinishRun(runId: nat)
      requires Inv()
      modifies this`isStreaming, this`streamingMessage, this`pendingToolCalls, this`activeRun
      ensures Inv() && messages == old(messages)
      ensures old(activeRun).Some? && old(activeRun).value.id == runId ==> activeRun.None?
      ensures !(old(activeRun).Some? && old(activeRun).value.id == runId) ==>
        && activeRun == old(activeRun) && isStreaming == old(isStreaming)
        && streamingMessage == old(streamingMessage) && pendingToolCalls == old(pendingToolCalls)
    {
      if activeRun.Some? && activeRun.value.id == runId {
        isStreaming, streamingMessage, pendingToolCalls := false, None, {};
        activeRun := None;
      }
    }

    /** A whole run: the events of the loop as far as they come, the closing ones if
        it broke off, and the end. The state gains the finished messages, and the
        listeners see a run that is over. */
    method FollowRun(events: seq<Event>, failed: bool, failure: AgentMessage)
      returns (id: Option<nat>, ghost seen: seq<Event>)
      requires Inv() && FrameOf(FRESH, events).Frame?
      modifies this
      ensures Inv()
      ensures id.None? <==> old(activeRun).Some?
      ensures id.None? ==> messages == old(messages) && activeRun == old(activeRun)
      ensures id.Some? ==>
        && activeRun.None?
        && messages == old(messages) + Ended(seen)
        && seen == (if failed && !FrameOf(FRESH, events).over
                    then events + Closing(FrameOf(FRESH, events), failure) else events)
    {
      hide FrameOf, FrameStep, Ended, Closing;
      seen := events;
      id := BeginRun();
      if id.None? {
        return;
      }
      for i := 0 to |events|
        invariant Inv() && activeRun.Some? && activeRun.value.id == id.value
        invariant log == events[..i] && before == old(messages)
      {
        ProcessEvent(id.value, events[i]);
        assert events[..i] + [events[i]] == events[..i + 1];
      }
      assert log == events;
      if failed {
        HandleRunFailure(id.value, failure);
      }
      seen := log;
      FinishRun(id.value);
    }
  }

  lemma ClosingIs(log: seq<Event>, f: Frame, failure: AgentMessage)
    requires f.Frame?
    ensures log + Closing(f, failure) ==
      log + (if !f.started then [AgentStart] else []) + (if !f.turn then [TurnStart] else [])
      + (if !f.message then [MessageStart(failure)] else [])
      + [MessageEnd(failure)] + [TurnEnd(failure, [])] + [AgentEnd([failure])]
  {
  }

  // ---------------------------------------------------------------------------
  // Queued messages
  // ---------------------------------------------------------------------------

  datatype QueueMode = All | OneAtATime

  class PendingMessageQueue {
    var messages: seq<AgentMessage>
    var mode: QueueMode

    constructor (mode: QueueMode)
      ensures messages == [] && this.mode == mode
    {
      messages, this.mode := [], mode;
    }

    method Enqueue(m: AgentMessage)
      modifies this`messages
      ensures messages == old(messages) + [m]
    {
      messages := messages + [m];
    }

    function Peek(): (r: seq<AgentMessage>)
      reads this
      ensures r <= messages && (messages != [] ==> r != [])
      ensures mode.OneAtATime? ==> |r| <= 1
      ensures mode.All? ==> r == messages
    {
      match mode
      case All => messages
      case OneAtATime => if messages == [] then [] else [messages[0]]
    }

    /** What is drained is the front of the queue, and nothing is lost. */
    method Drain() returns (drained: seq<AgentMessage>)
      modifies this`messages
      ensures drained == old(Peek()) && drained + messages == old(messages)
    {
      drained := Peek();
      if drained != [] {
        messages := messages[|drained|..];
      }
    }
  }
}
