/** One run of the agent loop over a shared context, the list of new messages and
    the events its listeners see. */
module AgentRun {
  import opened Options
  import opened Seqs
  import opened Messages
  import opened DeclareTools
  import opened AgentEvents
  import opened AgentLoop

  /** A run that is still going when the model stops watching is unfinished. */
  datatype Outcome = Completed | Failed | Unwatched

  /** The events of an open run: whole turns and the beginning of one more. */
  function RunEvents(turns: seq<Turn>, current: seq<Event>): seq<Event> {
    [AgentStart] + TurnsEvents(turns) + ([TurnStart] + current)
  }

  lemma RunEventsPush(turns: seq<Turn>, current: seq<Event>, e: Event)
    ensures RunEvents(turns, current + [e]) == RunEvents(turns, current) + [e]
  {
    assert [TurnStart] + (current + [e]) == [TurnStart] + current + [e];
    ConcatAssociates([AgentStart] + TurnsEvents(turns), [TurnStart] + current, [e]);
  }

  class Run {
    const hooks: Hooks
    const tools: seq<AgentTool>
    const sequential: bool
    var context: seq<AgentMessage>
    var newMessages: seq<AgentMessage>
    var events: seq<Event>
    var tick: nat

    ghost const initial: seq<AgentMessage>
    ghost var turns: seq<Turn>
    ghost var current: seq<Event>

    /** The transcript agrees with the new messages, and the events are whole
        turns and the events `current` of the one that is open. */
    ghost predicate Inv()
      reads this
    {
      && context == initial + newMessages
      && events == RunEvents(turns, current)
      && WholeTurns(turns)
    }

    constructor (context: seq<AgentMessage>, hooks: Hooks, tools: seq<AgentTool>, sequential: bool)
      ensures this.context == context == initial && newMessages == [] && events == [] && turns == []
      ensures this.hooks == hooks && this.tools == tools && this.sequential == sequential
    {
      this.context, this.hooks, this.tools, this.sequential := context, hooks, tools, sequential;
      newMessages, events, tick := [], [], 0;
      initial, turns, current := context, [], [];
    }

    /** Asking the outside takes time. */
    method Tick() returns (now: nat)
      modifies this`tick
      ensures now == old(tick) && tick == old(tick) + 1
      ensures old(Inv()) ==> Inv()
    {
      now := tick;
      tick := tick + 1;
    }

    method Emit(e: Event)
      requires events == RunEvents(turns, current)
      modifies this`events, this`current
      ensures events == RunEvents(turns, current) && current == old(current) + [e]
    {
      RunEventsPush(turns, current, e);
      events := events + [e];
      current := current + [e];
    }

    method FinalizeMessage(m: AgentMessage) returns (r: Option<AgentMessage>)
      modifies this`tick
      ensures r == Finalized(hooks, old(tick), m) && tick == old(tick) + 1
    {
      var now := Tick();
      var f := hooks.finalize(now, m);
      r := if f.Some? && Role(f.value) == Role(m) then f else None;
    }

    /** Messages given to the run: each is shown, finalized, and recorded, until
        the hook fails. */
    method PushMessages(ms: seq<AgentMessage>) returns (ok: bool, ghost ps: seq<Prompt>)
      requires Inv()
      modifies this`context, this`newMessages, this`events, this`current, this`tick
      ensures Inv() && tick >= old(tick)
      ensures |ps| <= |ms| && forall i :: 0 <= i < |ps| ==>
        ps[i].given == ms[i] && Finalized(hooks, old(tick) + i, ms[i]) == Some(ps[i].finalized)
      ensures newMessages == old(newMessages) + Prompted(ps)
      ensures ok ==> |ps| == |ms| && current == old(current) + PromptEvents(ps)
      ensures !ok ==> Refused(hooks, old(tick), tick)
      ensures !ok ==>
        && |ps| < |ms| && Finalized(hooks, old(tick) + |ps|, ms[|ps|]).None?
        && current == old(current) + (PromptEvents(ps) + [MessageStart(ms[|ps|])])
    {
      hide Finalized, RunEvents, WholeTurns, PromptEvents, Prompted;
      ps := [];
      NoPrompts();
      ConcatNothing(newMessages);
      ConcatNothing(current);
      for i := 0 to |ms|
        invariant Inv() && tick == old(tick) + i && |ps| == i
        invariant forall j :: 0 <= j < i ==>
          ps[j].given == ms[j] && Finalized(hooks, old(tick) + j, ms[j]) == Some(ps[j].finalized)
        invariant newMessages == old(newMessages) + Prompted(ps) && current == old(current) + PromptEvents(ps)
      {
        Emit(MessageStart(ms[i]));
        var finalized := FinalizeMessage(ms[i]);
        if finalized.None? {
          assert Refuses(hooks, old(tick) + i, ms[i]);
          ConcatAssociates(old(current), PromptEvents(ps), [MessageStart(ms[i])]);
          return false, ps;
        }
        Record(finalized.value);
        Emit(MessageEnd(finalized.value));
        PromptsPush(ps, Prompt(ms[i], finalized.value));
        AppendTwo(old(current), PromptEvents(ps), MessageStart(ms[i]), MessageEnd(finalized.value));
        ConcatAssociates(old(newMessages), Prompted(ps), [finalized.value]);
        ps := ps + [Prompt(ms[i], finalized.value)];
      }
      ok := true;
    }

    /** A message that is part of the transcript from now on. */
    method Record(m: AgentMessage)
      requires context == initial + newMessages
      modifies this`context, this`newMessages
      ensures context == initial + newMessages && newMessages == old(newMessages) + [m]
    {
      ConcatAssociates(initial, newMessages, [m]);
      context := context + [m];
      newMessages := newMessages + [m];
    }

    // -------------------------------------------------------------------------
    // The reply
    // -------------------------------------------------------------------------

    /** The final message takes the place of the partial one, or is shown now; the
        hook may rewrite it, and takes it out again by failing. */
    method FinishAssistantMessage(final: AssistantMessage, addedPartial: bool, ghost base: seq<AgentMessage>)
      returns (reply: Option<AssistantMessage>)
      requires events == RunEvents(turns, current)
      requires if addedPartial then |context| == |base| + 1 && context[..|base|] == base else context == base
      modifies this`context, this`events, this`current, this`tick
      ensures events == RunEvents(turns, current) && tick == old(tick) + 1
      ensures reply == AsReply(Finalized(hooks, old(tick), Reply(final)))
      ensures context == base + (if reply.Some? then [Reply(reply.value)] else [])
      ensures current == old(current) + (if addedPartial then [] else [MessageStart(Reply(final))])
        + (if reply.Some? then [MessageEnd(Reply(reply.value))] else [])
    {
      if !addedPartial {
        context := context + [Reply(final)];
        Emit(MessageStart(Reply(final)));
      } else {
        ConcatNothing(current);
        context := context[|context| - 1 := Reply(final)];
      }
      assert context == base + [Reply(final)];
      var finalized := FinalizeMessage(Reply(final));
      match finalized {
        case Some(Chat(Assistant(a))) =>
          context := context[|context| - 1 := Reply(a)];
          Emit(MessageEnd(Reply(a)));
          reply := Some(a);
        case _ =>
          context := context[..|context| - 1];
          ConcatNothing(base);
          ConcatNothing(current);
          reply := None;
      }
    }

    /** Reads the stream. The context holds the partial reply meanwhile, and in
        the end the finalized one, or nothing if finalizing failed. With more than
        one start the earlier partial replies stay in the context. */
    method StreamAssistantResponse()
      returns (reply: Option<AssistantMessage>, ghost first: AssistantMessage, ghost partials: seq<AssistantMessage>,
               ghost stale: seq<AgentMessage>)
      requires events == RunEvents(turns, current)
      modifies this`context, this`events, this`current, this`tick
      ensures events == RunEvents(turns, current) && tick == old(tick) + 2
      ensures reply.None? ==> Refused(hooks, old(tick), tick)
      ensures reply == AsReply(Finalized(hooks, old(tick) + 1, Reply(hooks.stream(old(tick)).final)))
      ensures var stream := hooks.stream(old(tick));
        Starts(stream.events) <= 1 ==>
          if Starts(stream.events) == 0 then first == stream.final && partials == []
          else [first] + partials == Shown(stream.events)
      ensures var starts := Starts(hooks.stream(old(tick)).events);
        && |stale| == (if starts <= 1 then 0 else starts - 1)
        && context == old(context) + stale + (if reply.Some? then [Reply(reply.value)] else [])
        && (starts <= 1 ==>
              current == old(current) +
                (if reply.Some? then ReplyEvents(first, partials, reply.value)
                 else [MessageStart(Reply(first))] + Updates(partials)))
    {
      hide RunEvents, Updates, Finalized, Starts, Shown;
      var now := Tick();
      var stream := hooks.stream(now);
      var addedPartial;
      ghost var latest;
      addedPartial, first, partials, stale, latest := ReadStream(stream.events);
      if !addedPartial {
        first := stream.final;
        FirstUpdates(first);
        ConcatNothing(old(current));
        ConcatNothing(context);
      }
      ghost var before := current;
      ConcatNothing(before);
      ConcatNothing(before + if addedPartial then [] else [MessageStart(Reply(first))]);
      reply := FinishAssistantMessage(stream.final, addedPartial, old(context) + stale);
      ghost var opening := [MessageStart(Reply(first))] + Updates(partials);
      assert reply.None? ==> Refuses(hooks, old(tick) + 1, Reply(stream.final));
      if reply.Some? {
        ConcatAssociates(old(current), opening, [MessageEnd(Reply(reply.value))]);
      }
    }

    /** The partial replies, each in the place of the one before. */
    method ReadStream(es: seq<StreamEvent>)
      returns (addedPartial: bool, ghost first: AssistantMessage, ghost partials: seq<AssistantMessage>,
               ghost stale: seq<AgentMessage>, ghost latest: seq<AgentMessage>)
      requires events == RunEvents(turns, current)
      modifies this`context, this`events, this`current
      ensures events == RunEvents(turns, current)
      ensures context == old(context) + stale + latest && |latest| == (if addedPartial then 1 else 0)
      ensures addedPartial == (Starts(es) > 0) && |stale| == (if Starts(es) <= 1 then 0 else Starts(es) - 1)
      ensures !addedPartial ==> partials == []
      ensures Starts(es) <= 1 ==>
        && Shown(es) == (if addedPartial then [first] + partials else [])
        && current == old(current) + (if addedPartial then [MessageStart(Reply(first))] + Updates(partials) else [])
    {
      hide RunEvents, Updates, Starts, Shown;
      addedPartial := false;
      latest, stale, partials := [], [], [];
      first := *;
      ConcatNothing(context);
      ConcatNothing(current);
      NothingShown();
      assert es[..0] == [];
      for i := 0 to |es|
        invariant events == RunEvents(turns, current)
        invariant context == old(context) + stale + latest && |latest| == (if addedPartial then 1 else 0)
        invariant !addedPartial ==> partials == []
        invariant var starts := Starts(es[..i]);
          && addedPartial == (starts > 0) && |stale| == (if starts <= 1 then 0 else starts - 1)
          && (starts <= 1 ==>
                && Shown(es[..i]) == (if addedPartial then [first] + partials else [])
                && current == old(current) +
                     if addedPartial then [MessageStart(Reply(first))] + Updates(partials) else [])
      {
        ShownPush(es[..i], es[i]);
        assert es[..i + 1] == es[..i] + [es[i]];
        match es[i]
        case Start(partial) =>
          if !addedPartial {
            first := partial;
            assert [first] + [] == [] + [partial];
            ConcatNothing(old(current));
            FirstUpdates(first);
          }
          ConcatAssociates(old(context), stale, latest);
          context := context + [Reply(partial)];
          stale, latest := stale + latest, [Reply(partial)];
          addedPartial := true;
          Emit(MessageStart(Reply(partial)));
        case Update(partial) =>
          if addedPartial {
            assert context[|context| - 1 := Reply(partial)] == old(context) + stale + [Reply(partial)];
            context := context[|context| - 1 := Reply(partial)];
            latest := [Reply(partial)];
            Emit(MessageUpdate(Reply(partial)));
            AppendUpdate(old(current), first, partials, partial);
            ConcatAssociates([first], partials, [partial]);
            partials := partials + [partial];
          }
      }
      assert es[..|es|] == es;
    }

    // -------------------------------------------------------------------------
    // Tools
    // -------------------------------------------------------------------------

    /** One more event of a batch that began behind `base`. */
    method EmitInBatch(e: Event, calls: seq<ToolCall>, ghost base: seq<Event>, ghost batch: seq<Event>)
      returns (ghost batch': seq<Event>)
      requires Inv() && current == base + batch
      modifies this`events, this`current
      ensures Inv() && current == base + batch' && batch' == batch + [e]
      ensures ReadBatch(calls, batch') == BatchStep(calls, ReadBatch(calls, batch), e)
      ensures OneAtATime(calls, batch) && Alone(ReadBatch(calls, batch')) ==> OneAtATime(calls, batch')
    {
      hide OneAtATime;
      Emit(e);
      ReadPush(calls, batch, e);
      ConcatAssociates(base, batch, [e]);
      batch' := batch + [e];
      if OneAtATime(calls, batch) && Alone(ReadBatch(calls, batch')) {
        OneAtATimePush(calls, batch, e);
      }
    }

    /** The cancellation was seen between two points in time. */
    ghost predicate CancelSeen(from: nat, to: nat) {
      exists k :: from <= k < to && hooks.cancelled(k)
    }

    /** The call was prepared to run. */
    ghost predicate Ready(c: ToolCall, from: nat, to: nat) {
      exists k :: from <= k < to && hooks.prepareCall(k, c).Prepared?
    }

    /** The preparation of the call answered it, or the call ran afterwards to this
        outcome, or was cancelled before it ran. */
    ghost predicate Obtained(c: ToolCall, o: ToolOutcome, from: nat, to: nat) {
      || (exists k :: from <= k < to && hooks.prepareCall(k, c) == Immediate(o))
      || exists m :: from <= m < to && Ready(c, from, m)
           && (hooks.execute(m, c).outcome == o || (o == ABORTED && hooks.cancelled(m)))
    }

    /** The result is what the hook made of the outcome of the call. */
    ghost predicate AnswerFor(c: ToolCall, o: ToolOutcome, r: ToolResult, from: nat, to: nat) {
      exists k: nat :: from <= k < to && FinalizedAnswer(hooks, k, c, o) == Some(r)
    }

    /** The result message of a call that ended: the hook may rewrite it, but it
        keeps answering the call. */
    method AnswerCall(
      c: ToolCall, outcome: ToolOutcome, calls: seq<ToolCall>, ghost base: seq<Event>, ghost batch: seq<Event>)
      returns (result: Option<ToolResult>, ghost batch': seq<Event>)
      requires Inv() && current == base + batch
      requires var b := ReadBatch(calls, batch);
        b.Batch? && b.open.None? && c.id in b.ended && |b.results| < |calls| && c == calls[|b.results|]
      modifies this`context, this`newMessages, this`events, this`current, this`tick
      ensures Inv() && current == base + batch' && tick > old(tick)
      ensures result == FinalizedAnswer(hooks, old(tick), c, outcome)
      ensures result.None? ==>
        batch' == batch && newMessages == old(newMessages) && Refused(hooks, old(tick), tick)
      ensures result.Some? ==>
        var b := ReadBatch(calls, batch);
        && result.value.toolCallId == c.id
        && newMessages == old(newMessages) + [Answer(result.value)]
        && ReadBatch(calls, batch') ==
             Batch(b.started, b.running, b.ended - multiset{c.id}, b.results + [result.value], None)
      ensures OneAtATime(calls, batch) && Alone(ReadBatch(calls, batch)) ==> OneAtATime(calls, batch')
    {
      hide OneAtATime, BatchStep, ReadBatch, Alone;
      batch' := batch;
      var message := Answer(ResultMessage(c, outcome, tick));
      var finalized := FinalizeMessage(message);
      assert AsResult(finalized).None? ==> Refuses(hooks, old(tick), message);
      match finalized {
        case Some(Chat(Result(r))) =>
          var answer := r.(toolCallId := c.id);
          OneAnswer(calls, ReadBatch(calls, batch), answer);
          batch' := EmitInBatch(MessageStart(Answer(answer)), calls, base, batch');
          batch' := EmitInBatch(MessageEnd(Answer(answer)), calls, base, batch');
          Record(Answer(answer));
          result := Some(answer);
        case _ =>
          result := None;
      }
    }

    /** A reply cut off by the token limit: no call is executed, each is answered
        with an error, and the loop goes on. */
    method FailToolCallsFromTruncatedMessage(calls: seq<ToolCall>)
      returns (terminate: Option<bool>, results: seq<ToolResult>, ghost batch: seq<Event>,
               ghost outcomes: seq<ToolOutcome>)
      requires Inv()
      modifies this`context, this`newMessages, this`events, this`current, this`tick
      ensures Inv() && tick >= old(tick)
      ensures current == old(current) + batch && newMessages == old(newMessages) + Answers(results)
      ensures ReadBatch(calls, batch).Batch? && ReadBatch(calls, batch).results == results
      ensures OneAtATime(calls, batch)
      ensures |results| <= |outcomes| <= |calls| && forall i :: 0 <= i < |results| ==>
        AnswerFor(calls[i], outcomes[i], results[i], old(tick), tick)
      ensures forall i :: 0 <= i < |outcomes| ==> outcomes[i] == TruncatedOutcome(calls[i].name)
      ensures terminate.None? ==> Refused(hooks, old(tick), tick)
      ensures terminate.Some? ==>
        && WholeBatch(calls, batch, results) && |outcomes| == |results| == |calls|
        && terminate == Some(false) == Some(Terminates(outcomes))
    {
      hide BatchStep, ReadBatch, Inv, TruncatedOutcome, Answers, OneAtATime;
      results, batch, outcomes := [], [], [];
      ConcatNothing(current);
      ConcatNothing(newMessages);
      EmptyBatch(calls);
      ghost var base, recorded := current, newMessages;
      for i := 0 to |calls|
        invariant Inv() && tick >= old(tick) && current == base + batch && |results| == i
        invariant OneAtATime(calls, batch)
        invariant |outcomes| == i && forall j :: 0 <= j < i ==> outcomes[j] == TruncatedOutcome(calls[j].name)
        invariant forall j :: 0 <= j < i ==> AnswerFor(calls[j], outcomes[j], results[j], old(tick), tick)
        invariant newMessages == recorded + Answers(results)
        invariant ReadBatch(calls, batch) == Batch(i, multiset{}, multiset{}, results, None)
      {
        var c := calls[i];
        OneCall(calls, i, results, true);
        batch := EmitInBatch(ToolStart(c.id, c.name), calls, base, batch);
        batch := EmitInBatch(ToolEnd(c.id, true), calls, base, batch);
        var answer;
        answer, batch := AnswerCall(c, TruncatedOutcome(c.name), calls, base, batch);
        if answer.None? {
          return None, results, batch, outcomes;
        }
        AnswersPush(results, answer.value);
        ConcatAssociates(recorded, Answers(results), [Answer(answer.value)]);
        results := results + [answer.value];
        outcomes := outcomes + [TruncatedOutcome(c.name)];
      }
      TruncatedGoesOn(calls, outcomes);
      terminate := Some(false);
    }

    /** One call from its start to its end. */
    method ExecuteCall(
      i: nat, calls: seq<ToolCall>, results: seq<ToolResult>, ghost base: seq<Event>, ghost batch: seq<Event>)
      returns (outcome: ToolOutcome, ghost batch': seq<Event>)
      requires Inv() && current == base + batch && i < |calls|
      requires ReadBatch(calls, batch) == Batch(i, multiset{}, multiset{}, results, None)
      modifies this`events, this`current, this`tick
      ensures Inv() && tick > old(tick) && current == base + batch'
      ensures ReadBatch(calls, batch') == Batch(i + 1, multiset{}, multiset{calls[i].id}, results, None)
      ensures Obtained(calls[i], outcome, old(tick), tick)
      ensures OneAtATime(calls, batch) ==> OneAtATime(calls, batch')
    {
      hide BatchStep, ReadBatch, Inv, OneAtATime;
      var c := calls[i];
      OneCall(calls, i, results, false);
      batch' := EmitInBatch(ToolStart(c.id, c.name), calls, base, batch);
      var now := Tick();
      var preparation := hooks.prepareCall(now, c);
      match preparation {
        case Immediate(o) =>
          outcome := o;
        case Prepared =>
          now := Tick();
          var execution := hooks.execute(now, c);
          batch' := EmitUpdates(execution.updates, c.id, calls, base, batch');
          outcome := execution.outcome;
      }
      OneCall(calls, i, results, outcome.isError);
      batch' := EmitInBatch(ToolEnd(c.id, outcome.isError), calls, base, batch');
    }

    method ExecuteToolCallsSequential(calls: seq<ToolCall>)
      returns (terminate: Option<bool>, results: seq<ToolResult>, ghost batch: seq<Event>,
               ghost outcomes: seq<ToolOutcome>)
      requires Inv()
      modifies this`context, this`newMessages, this`events, this`current, this`tick
      ensures Inv() && tick >= old(tick)
      ensures current == old(current) + batch && newMessages == old(newMessages) + Answers(results)
      ensures ReadBatch(calls, batch).Batch? && ReadBatch(calls, batch).results == results
      ensures OneAtATime(calls, batch)
      ensures |results| <= |outcomes| <= |calls| && forall i :: 0 <= i < |results| ==>
        AnswerFor(calls[i], outcomes[i], results[i], old(tick), tick)
      ensures forall i :: 0 <= i < |outcomes| ==> Obtained(calls[i], outcomes[i], old(tick), tick)
      ensures terminate.None? ==> Refused(hooks, old(tick), tick)
      ensures terminate.Some? ==>
        && WholeBatch(calls, batch, results) && |outcomes| == |results| <= |calls|
        && terminate == Some(Terminates(outcomes))
        && (|results| < |calls| ==> CancelSeen(old(tick), tick))
    {
      hide BatchStep, ReadBatch, Inv, Answers, Terminates, OneAtATime;
      results, batch := [], [];
      var finalizedCalls: seq<ToolOutcome> := [];
      outcomes := [];
      ConcatNothing(current);
      ConcatNothing(newMessages);
      EmptyBatch(calls);
      ghost var base, recorded := current, newMessages;
      var i, cancelled := 0, false;
      while i < |calls| && !cancelled
        invariant Inv() && tick >= old(tick) && current == base + batch
        invariant i == |results| == |finalizedCalls| <= |calls| && outcomes == finalizedCalls
        invariant OneAtATime(calls, batch)
        invariant forall j :: 0 <= j < i ==> AnswerFor(calls[j], outcomes[j], results[j], old(tick), tick)
        invariant newMessages == recorded + Answers(results)
        invariant ReadBatch(calls, batch) == Batch(i, multiset{}, multiset{}, results, None)
        invariant forall j :: 0 <= j < i ==> Obtained(calls[j], outcomes[j], old(tick), tick)
        invariant cancelled ==> CancelSeen(old(tick), tick)
        decreases |calls| - i, !cancelled
      {
        var c := calls[i];
        OneCall(calls, i, results, false);
        var outcome;
        outcome, batch := ExecuteCall(i, calls, results, base, batch);
        var answer;
        answer, batch := AnswerCall(c, outcome, calls, base, batch);
        if answer.None? {
          return None, results, batch, outcomes;
        }
        AnswersPush(results, answer.value);
        ConcatAssociates(recorded, Answers(results), [Answer(answer.value)]);
        results := results + [answer.value];
        finalizedCalls := finalizedCalls + [outcome];
        outcomes := finalizedCalls;
        i := i + 1;
        var now := Tick();
        cancelled := hooks.cancelled(now);
      }
      terminate := Some(Terminates(finalizedCalls));
    }

    /** Starting the calls of a parallel batch: what is answered at once ends now. */
    method StartTasks(calls: seq<ToolCall>)
      returns (tasks: seq<Task>, ghost batch: seq<Event>)
      requires Inv()
      modifies this`events, this`current, this`tick
      ensures Inv() && tick >= old(tick) && current == old(current) + batch && |tasks| <= |calls|
      ensures ReadBatch(calls, batch) == Batch(|tasks|, Unfinished(tasks), FinishedIds(tasks), [], None)
      ensures forall k :: 0 <= k < |tasks| ==> TaskOf(tasks[k], calls[k], old(tick), tick)
      ensures |tasks| < |calls| ==> CancelSeen(old(tick), tick)
    {
      hide BatchStep, ReadBatch, Inv, Unfinished, FinishedIds;
      tasks, batch := [], [];
      ConcatNothing(current);
      EmptyBatch(calls);
      NoTasks();
      ghost var base := current;
      var i, cancelled := 0, false;
      while i < |calls| && !cancelled
        invariant Inv() && tick >= old(tick) && current == base + batch && i == |tasks| <= |calls|
        invariant ReadBatch(calls, batch) == Batch(i, Unfinished(tasks), FinishedIds(tasks), [], None)
        invariant forall k :: 0 <= k < i ==> TaskOf(tasks[k], calls[k], old(tick), tick)
        invariant cancelled ==> CancelSeen(old(tick), tick)
        decreases |calls| - i, !cancelled
      {
        var c := calls[i];
        batch := EmitInBatch(ToolStart(c.id, c.name), calls, base, batch);
        var now := Tick();
        var preparation := hooks.prepareCall(now, c);
        var task := Waiting(c);
        StartTask(calls, tasks, c, false);
        if preparation.Immediate? {
          StartTask(calls, tasks, c, preparation.outcome.isError);
          batch := EmitInBatch(ToolEnd(c.id, preparation.outcome.isError), calls, base, batch);
          task := Finished(c, preparation.outcome);
        }
        TasksPush(tasks, task);
        tasks := tasks + [task];
        i := i + 1;
        now := Tick();
        cancelled := hooks.cancelled(now);
      }
    }

    /** A task belongs to the call, and what it finished or will finish with was obtained. */
    ghost predicate TaskOf(t: Task, c: ToolCall, from: nat, to: nat) {
      t.call == c && if t.Waiting? then Ready(c, from, to) else Obtained(c, t.outcome, from, to)
    }

    /** The tasks run side by side: whichever is chosen goes one step, in any order,
        until all have finished. */
    method JoinTasks(
      calls: seq<ToolCall>, tasks: seq<Task>, ghost from: nat, ghost base: seq<Event>, ghost batch: seq<Event>)
      returns (done: seq<Task>, ghost batch': seq<Event>)
      requires Inv() && current == base + batch && |tasks| <= |calls| && from <= tick
      requires ReadBatch(calls, batch) == Batch(|tasks|, Unfinished(tasks), FinishedIds(tasks), [], None)
      requires forall k :: 0 <= k < |tasks| ==> TaskOf(tasks[k], calls[k], from, tick)
      modifies this`events, this`current, this`tick
      ensures Inv() && tick >= old(tick) && current == base + batch' && |done| == |tasks|
      ensures ReadBatch(calls, batch') == Batch(|done|, Unfinished(done), FinishedIds(done), [], None)
      ensures forall k :: 0 <= k < |done| ==> done[k].Finished? && TaskOf(done[k], calls[k], from, tick)
    {
      hide BatchStep, ReadBatch, Inv, Unfinished, FinishedIds, Work, NotBegun;
      done, batch' := tasks, batch;
      while exists k :: 0 <= k < |done| && !done[k].Finished?
        invariant Inv() && tick >= old(tick) && current == base + batch' && |done| == |tasks|
        invariant ReadBatch(calls, batch') == Batch(|done|, Unfinished(done), FinishedIds(done), [], None)
        invariant forall k :: 0 <= k < |done| ==> TaskOf(done[k], calls[k], from, tick)
        decreases NotBegun(done), Work(done)
      {
        var k :| 0 <= k < |done| && !done[k].Finished?;
        var c := done[k].call;
        var next;
        match done[k] {
          case Waiting(_) =>
            var now := Tick();
            if hooks.cancelled(now) {
              next := Finished(c, ABORTED);
            } else {
              now := Tick();
              var execution := hooks.execute(now, c);
              next := Running(c, execution.updates, execution.outcome);
            }
          case Running(_, updates, outcome) =>
            if updates > 0 {
              next := Running(c, updates - 1, outcome);
            } else {
              next := Finished(c, outcome);
            }
        }
        UpdateTask(done, k, next);
        TaskProgress(done, k, next);
        if next.Finished? {
          TaskEnds(calls, done, c, next.outcome.isError);
          batch' := EmitInBatch(ToolEnd(c.id, next.outcome.isError), calls, base, batch');
        } else if done[k].Running? {
          TaskReports(calls, done, c);
          batch' := EmitInBatch(ToolUpdate(c.id), calls, base, batch');
        }
        done := done[k := next];
      }
    }

    method ExecuteToolCallsParallel(calls: seq<ToolCall>)
      returns (terminate: Option<bool>, results: seq<ToolResult>, ghost batch: seq<Event>,
               ghost outcomes: seq<ToolOutcome>)
      requires Inv()
      modifies this`context, this`newMessages, this`events, this`current, this`tick
      ensures Inv() && tick >= old(tick)
      ensures current == old(current) + batch && newMessages == old(newMessages) + Answers(results)
      ensures ReadBatch(calls, batch).Batch? && ReadBatch(calls, batch).results == results
      ensures |results| <= |outcomes| <= |calls| && forall i :: 0 <= i < |results| ==>
        AnswerFor(calls[i], outcomes[i], results[i], old(tick), tick)
      ensures forall i :: 0 <= i < |outcomes| ==> Obtained(calls[i], outcomes[i], old(tick), tick)
      ensures terminate.None? ==> Refused(hooks, old(tick), tick)
      ensures terminate.Some? ==>
        && WholeBatch(calls, batch, results) && |outcomes| == |results| <= |calls|
        && terminate == Some(Terminates(outcomes))
        && (|results| < |calls| ==> CancelSeen(old(tick), tick))
    {
      hide BatchStep, ReadBatch, Inv, Unfinished, FinishedIds, Answers, Terminates, Ids;
      ghost var base, recorded := current, newMessages;
      var tasks;
      tasks, batch := StartTasks(calls);
      var done;
      done, batch := JoinTasks(calls, tasks, old(tick), base, batch);
      AllFinished(done);
      FinishedAre(done, calls);
      var n := |done|;
      outcomes := seq(n, k requires 0 <= k < n => done[k].outcome);
      var ok;
      assert calls[0..n] == calls[..n];
      ok, results, batch := AnswerTasks(calls, done, base, batch);
      ConcatNothing(recorded);
      if !ok {
        return None, results, batch, outcomes;
      }
      terminate := Some(Terminates(seq(n, k requires 0 <= k < n => done[k].outcome)));
    }

    /** The result messages of the finished tasks, in the order of the calls. */
    method AnswerTasks(calls: seq<ToolCall>, done: seq<Task>, ghost base: seq<Event>, ghost batch: seq<Event>)
      returns (ok: bool, results: seq<ToolResult>, ghost batch': seq<Event>)
      requires Inv() && current == base + batch && |done| <= |calls|
      requires forall k :: 0 <= k < |done| ==> done[k].Finished?
      requires ReadBatch(calls, batch) == Batch(|done|, multiset{}, Ids(calls[0..|done|]), [], None)
      modifies this`context, this`newMessages, this`events, this`current, this`tick
      ensures Inv() && tick >= old(tick) && current == base + batch'
      ensures newMessages == old(newMessages) + Answers(results)
      ensures ReadBatch(calls, batch').Batch? && ReadBatch(calls, batch').results == results
      ensures |results| <= |done| && forall i :: 0 <= i < |results| ==>
        AnswerFor(calls[i], done[i].outcome, results[i], old(tick), tick)
      ensures !ok ==> Refused(hooks, old(tick), tick)
      ensures ok ==> WholeBatch(calls, batch', results) && |results| == |done|
    {
      hide BatchStep, ReadBatch, Inv, Answers, Ids;
      var n := |done|;
      ghost var recorded := newMessages;
      results, batch' := [], batch;
      EmptyBatch(calls);
      ConcatNothing(recorded);
      for i := 0 to n
        invariant Inv() && tick >= old(tick) && current == base + batch' && |results| == i
        invariant forall j :: 0 <= j < i ==> AnswerFor(calls[j], done[j].outcome, results[j], old(tick), tick)
        invariant newMessages == recorded + Answers(results)
        invariant ReadBatch(calls, batch') == Batch(n, multiset{}, Ids(calls[i..n]), results, None)
      {
        var c := calls[i];
        NextId(calls, i, n);
        var answer;
        answer, batch' := AnswerCall(c, done[i].outcome, calls, base, batch');
        if answer.None? {
          return false, results, batch';
        }
        AnswersPush(results, answer.value);
        ConcatAssociates(recorded, Answers(results), [Answer(answer.value)]);
        results := results + [answer.value];
      }
      NoIds(calls, n);
      ok := true;
    }

    method EmitUpdates(n: nat, id: string, calls: seq<ToolCall>, ghost base: seq<Event>, ghost batch: seq<Event>)
      returns (ghost batch': seq<Event>)
      requires Inv() && current == base + batch
      requires var b := ReadBatch(calls, batch); b.Batch? && b.open.None? && id in b.running
      modifies this`events, this`current
      ensures Inv() && current == base + batch' && ReadBatch(calls, batch') == ReadBatch(calls, batch)
      ensures OneAtATime(calls, batch) && Alone(ReadBatch(calls, batch)) ==> OneAtATime(calls, batch')
    {
      hide OneAtATime;
      batch' := batch;
      for i := 0 to n
        invariant Inv() && current == base + batch' && ReadBatch(calls, batch') == ReadBatch(calls, batch)
        invariant OneAtATime(calls, batch) && Alone(ReadBatch(calls, batch)) ==> OneAtATime(calls, batch')
      {
        batch' := EmitInBatch(ToolUpdate(id), calls, base, batch');
      }
    }

    predicate RunsSequentially(calls: seq<ToolCall>) {
      sequential || exists i :: 0 <= i < |calls| && NeedsTurnAlone(tools, calls[i].name)
    }

    method ExecuteToolCalls(calls: seq<ToolCall>, truncated: bool)
      returns (terminate: Option<bool>, results: seq<ToolResult>, ghost batch: seq<Event>,
               ghost outcomes: seq<ToolOutcome>)
      requires Inv()
      modifies this`context, this`newMessages, this`events, this`current, this`tick
      ensures Inv() && tick >= old(tick)
      ensures current == old(current) + batch && newMessages == old(newMessages) + Answers(results)
      ensures ReadBatch(calls, batch).Batch? && ReadBatch(calls, batch).results == results
      ensures truncated || RunsSequentially(calls) ==> OneAtATime(calls, batch)
      ensures |results| <= |outcomes| <= |calls| && forall i :: 0 <= i < |results| ==>
        AnswerFor(calls[i], outcomes[i], results[i], old(tick), tick)
      ensures terminate.None? ==> Refused(hooks, old(tick), tick)
      ensures terminate.Some? ==> WholeBatch(calls, batch, results) && |outcomes| == |results|
      ensures terminate.Some? && |results| < |calls| ==> !truncated && CancelSeen(old(tick), tick)
      ensures terminate.Some? ==> terminate == Some(Terminates(outcomes))
      ensures truncated && terminate.Some? ==> terminate == Some(false)
      ensures forall i :: 0 <= i < |outcomes| ==>
        if truncated then outcomes[i] == TruncatedOutcome(calls[i].name)
        else Obtained(calls[i], outcomes[i], old(tick), tick)
    {
      hide OneAtATime, AnswerFor, Obtained, ReadBatch, RunsSequentially, Answers, CancelSeen, Refused, Inv,
           TruncatedOutcome, Terminates;
      if truncated {
        terminate, results, batch, outcomes := FailToolCallsFromTruncatedMessage(calls);
      } else if RunsSequentially(calls) {
        terminate, results, batch, outcomes := ExecuteToolCallsSequential(calls);
      } else {
        terminate, results, batch, outcomes := ExecuteToolCallsParallel(calls);
      }
    }

    // -------------------------------------------------------------------------
    // Turns
    // -------------------------------------------------------------------------

    /** No turn is open. */
    ghost predicate Between()
      reads this
    {
      && context == initial + newMessages
      && newMessages == TurnsMessages(turns)
      && events == [AgentStart] + TurnsEvents(turns)
      && WholeTurns(turns)
    }

    method OpenTurn()
      requires Between()
      modifies this`events, this`current
      ensures Inv() && current == []
    {
      events := events + [TurnStart];
      current := [];
      assert [TurnStart] + [] == [TurnStart];
    }

    method EndTurn(reply: AssistantMessage, results: seq<ToolResult>, ghost t: Turn)
      requires Inv() && WholeTurn(t) && t.reply == reply && t.results == results
      requires current == PromptEvents(t.prompts) + ReplyEvents(t.first, t.partials, reply) + t.batch
      requires newMessages == TurnsMessages(turns) + TurnMessages(t)
      modifies this`events, this`current, this`turns
      ensures Between() && turns == old(turns) + [t]
    {
      hide PromptEvents, ReplyEvents, TurnsEvents, TurnsMessages, TurnMessages, WholeTurn;
      TurnsPush(turns, t);
      TurnEventsAre(t);
      RunEventsPush(turns, current, TurnEnd(Reply(reply), results));
      events := events + [TurnEnd(Reply(reply), results)];
      turns, current := turns + [t], [];
      ConcatAssociates([AgentStart], TurnsEvents(old(turns)), TurnEvents(t));
    }

    method FinishRun()
      requires Between()
      modifies this`events
      ensures GoodRun(events, turns, newMessages) && Ended(events) == newMessages
    {
      events := events + [AgentEnd(newMessages)];
      GoodRunEnded(events, turns, newMessages);
    }

    method FailRun(ghost cut: Cut)
      requires Inv() && GoodCut(cut) && current == CutEvents(cut)
      requires newMessages == TurnsMessages(turns) + CutMessages(cut)
      modifies this`events
      ensures CutRun(events, turns, cut, newMessages) && Ended(events) == newMessages
    {
      hide TurnsEvents, CutEvents, TurnsMessages, CutMessages, WholeTurns, GoodCut;
      events := events + [AgentEnd(newMessages)];
      CutRunEnded(events, turns, cut, newMessages);
    }

    /** The messages a request waits for, with the tool changes declared. */
    method PushPending(pending: seq<AgentMessage>) returns (ok: bool, ghost ps: seq<Prompt>, ghost failed: AgentMessage)
      requires Inv()
      modifies this`context, this`newMessages, this`events, this`current, this`tick
      ensures Inv() && tick >= old(tick)
      ensures newMessages == old(newMessages) + Prompted(ps)
      ensures ok ==> current == old(current) + PromptEvents(ps)
      ensures !ok ==> current == old(current) + (PromptEvents(ps) + [MessageStart(failed)])
      ensures !ok ==> Refused(hooks, old(tick), tick)
      ensures ok ==> Given(ps) == DeclareToolChanges(old(context), Declarations(tools), pending, old(tick))
      ensures (forall k, m :: hooks.finalize(k, m) == Some(m)) ==>
        && ok && Prompted(ps) == DeclareToolChanges(old(context), Declarations(tools), pending, old(tick))
        && (SameDeclarations(AgentCurrentTools(context), Declarations(tools)) <==>
              !Uncovers(Declared(old(context), pending), Declarations(tools)))
    {
      hide DeclareToolChanges, SameDeclarations, AgentCurrentTools, Uncovers, Declared, Prompted, PromptEvents,
           Declarations;
      var ms := DeclareToolChanges(context, Declarations(tools), pending, tick);
      DeclarationSynchronisesExactly(context, Declarations(tools), pending, tick);
      ok, ps := PushMessages(ms);
      if forall k, m :: hooks.finalize(k, m) == Some(m) {
        forall k, m
          ensures Finalized(hooks, k, m) == Some(m)
        {
        }
        if ok {
          PromptedIs(ps, ms);
        }
      }
      if ok {
        GivenIs(ps, ms);
      }
      failed := if ok then Custom("", "") else ms[|ps|];
      ConcatAssociates(initial, old(newMessages), Prompted(ps));
    }

    /** The rest of a turn whose reply is in the transcript. */
    method FinishTurn(
      message: AssistantMessage, ghost ps: seq<Prompt>, ghost first: AssistantMessage,
      ghost partials: seq<AssistantMessage>)
      returns (next: Next, ghost cut: Cut)
      requires Inv() && current == PromptEvents(ps) + ReplyEvents(first, partials, message)
      requires newMessages == TurnsMessages(turns) + (Prompted(ps) + [Reply(message)])
      modifies this
      ensures context == initial + newMessages && tick >= old(tick)
      ensures next == Over(true) ==> GoodRun(events, turns, newMessages) && Ended(events) == newMessages
      ensures next == Over(false) ==> CutRun(events, turns, cut, newMessages) && Ended(events) == newMessages
      ensures next == Over(false) ==> Refused(hooks, old(tick), tick)
      ensures next.GoOn? ==>
        && Between() && !ReplyFailed(message)
        && tick > 0 && next.decision == hooks.finishTurn(tick - 1) != Some(End)
        && (CallsOf(message.content) == [] ==> !next.hasMoreToolCalls)
        && (message.stopReason.Length? && CallsOf(message.content) != [] ==> next.hasMoreToolCalls)
      ensures next == Over(true) ==> ReplyFailed(message) || (tick > 0 && hooks.finishTurn(tick - 1) == Some(End))
      ensures next.GoOn? || next == Over(true) ==>
        exists t :: turns == old(turns) + [t] && t.prompts == ps && t.reply == message
    {
      hide PromptEvents, ReplyEvents, TurnsMessages, Prompted, Ended, ReadBatch, Answers, RunEvents, WholeTurns,
           GoodRun, CutRun;
      cut := InReply(ps, first, partials);
      var calls := CallsOf(message.content);
      ghost var before, told := Prompted(ps) + [Reply(message)], TurnsMessages(turns);
      var terminate, results: seq<ToolResult> := Some(true), [];
      ghost var batch: seq<Event> := [];
      var failed := ReplyFailed(message);
      EmptyBatch(calls);
      ConcatNothing(current);
      ConcatNothing(newMessages);
      if calls != [] && !failed {
        ghost var outcomes;
        terminate, results, batch, outcomes := ExecuteToolCalls(calls, message.stopReason.Length?);
      }
      ConcatAssociates(told, before, Answers(results));
      if terminate.None? {
        cut := InTools(ps, first, partials, message, batch);
        BatchEnded(calls, batch);
        FailRun(cut);
        return Over(false), cut;
      }
      var now := Tick();
      var decision := hooks.finishTurn(now);
      ghost var turn := Turn(ps, first, partials, message, batch, results);
      EndTurn(message, results, turn);
      assert turns == old(turns) + [turn] && turn.prompts == ps && turn.reply == message;
      if failed || decision == Some(End) {
        FinishRun();
        return Over(true), cut;
      }
      next := GoOn(!terminate.value, decision);
    }

    /** The messages of the turn; after a turn the preparation comes first, then a
        second look at the queue, and the next turn is opened. */
    method PrepareTurn(afterATurn: bool, queued: seq<AgentMessage>, ghost earlier: seq<Prompt>)
      returns (due: seq<AgentMessage>)
      requires if afterATurn then Between() && earlier == []
        else Inv() && current == PromptEvents(earlier) && newMessages == TurnsMessages(turns) + Prompted(earlier)
      modifies this`events, this`current, this`tick
      ensures Inv() && current == PromptEvents(earlier) && newMessages == TurnsMessages(turns) + Prompted(earlier)
      ensures due == Due(hooks, afterATurn, queued, old(tick)) && tick == DueAt(afterATurn, queued, old(tick))
    {
      hide PromptEvents, TurnsMessages, Prompted, TurnsEvents, WholeTurns;
      due := queued;
      if afterATurn {
        var now := Tick();
        var prepared := hooks.prepareNextTurn(now);
        if queued == [] {
          now := Tick();
          due := hooks.steering(now);
        }
        OpenTurn();
        NoPrompts();
        ConcatNothing(newMessages);
        due := prepared + due;
      }
    }

    /** One turn: messages, request, reply, tools. `ps` are the messages that were
        recorded in it before. */
    method RunTurn(afterATurn: bool, queued: seq<AgentMessage>, ghost earlier: seq<Prompt>)
      returns (next: Next, ghost cut: Cut)
      requires if afterATurn then Between() && earlier == []
        else Inv() && current == PromptEvents(earlier) && newMessages == TurnsMessages(turns) + Prompted(earlier)
      requires forall k :: Starts(hooks.stream(k).events) <= 1
      modifies this
      ensures context == initial + newMessages && tick >= old(tick)
      ensures next == Over(true) ==> GoodRun(events, turns, newMessages) && Ended(events) == newMessages
      ensures next == Over(false) ==> CutRun(events, turns, cut, newMessages) && Ended(events) == newMessages
      ensures next == Over(false) ==> Refused(hooks, old(tick), tick)
      ensures next.GoOn? ==>
        Between() && tick > 0 && next.decision == hooks.finishTurn(tick - 1) != Some(End)
      ensures next.GoOn? || next == Over(true) ==>
        && |turns| == |old(turns)| + 1 && turns[..|old(turns)|] == old(turns)
        && Given(turns[|old(turns)|].prompts) == Given(earlier) + DeclareToolChanges(
             old(context), Declarations(tools), Due(hooks, afterATurn, queued, old(tick)),
             DueAt(afterATurn, queued, old(tick)))
        && (next == Over(true) ==>
              ReplyFailed(turns[|old(turns)|].reply) || (tick > 0 && hooks.finishTurn(tick - 1) == Some(End)))
        && (next.GoOn? && CallsOf(turns[|old(turns)|].reply.content) == [] ==> !next.hasMoreToolCalls)
    {
      hide PromptEvents, ReplyEvents, TurnsMessages, Prompted, Ended, ReadBatch, Answers, WholeTurns,
           RunEvents, GoodRun, CutRun, Updates, Given, DeclareToolChanges, Declarations, Due, DueAt, Refused,
           ReplyFailed, CallsOf, Shown, Finalized, Uncovers, Declared, SameDeclarations, AgentCurrentTools;
      cut := InPrompts([], Custom("", ""));
      ghost var told := TurnsMessages(turns);
      var due := PrepareTurn(afterATurn, queued, earlier);
      ghost var prepared := tick;
      DueLater(afterATurn, queued, old(tick));
      var ok;
      ghost var more, failed;
      ok, more, failed := PushPending(due);
      GivenConcat(earlier, more);
      ghost var ps := earlier + more;
      PromptsConcat(earlier, more);
      ConcatAssociates(told, Prompted(earlier), Prompted(more));
      if !ok {
        cut := InPrompts(ps, failed);
        ConcatAssociates(PromptEvents(earlier), PromptEvents(more), [MessageStart(failed)]);
        FailRun(cut);
        RefusedWidens(hooks, old(tick), prepared, tick);
        return Over(false), cut;
      }
      var reply;
      ghost var first, partials, stale;
      ghost var asked := tick;
      reply, first, partials, stale := StreamAssistantResponse();
      ConcatNothing(initial + newMessages);
      if reply.None? {
        cut := InReply(ps, first, partials);
        ConcatNothing(initial + newMessages);
        FailRun(cut);
        RefusedWidens(hooks, old(tick), asked, tick);
        return Over(false), cut;
      }
      var message := reply.value;
      ConcatAssociates(initial, newMessages, [Reply(message)]);
      newMessages := newMessages + [Reply(message)];
      ConcatAssociates(told, Prompted(ps), [Reply(message)]);
      ghost var answered := tick;
      next, cut := FinishTurn(message, ps, first, partials);
      if next == Over(false) {
        RefusedWidens(hooks, old(tick), answered, tick);
      }
    }

    /** The last turn ended the run: its reply failed, or the hook said so. */
    ghost predicate Stopped()
      requires turns != []
      reads this
    {
      ReplyFailed(turns[|turns| - 1].reply) || (tick > 0 && hooks.finishTurn(tick - 1) == Some(End))
    }

    /** After the last turn the queue was empty; it was to be continued or not. */
    ghost predicate LookedAgain(continued: bool)
      reads this
    {
      tick >= 2 && hooks.steering(tick - 1) == [] && continued == (hooks.finishTurn(tick - 2) == Some(Continue))
    }

    /** The last turn was not to be continued, and nothing more was queued. */
    ghost predicate RanOut()
      reads this
    {
      && tick >= 3 && hooks.finishTurn(tick - 3) != Some(Continue)
      && hooks.steering(tick - 2) == [] && hooks.followUp(tick - 1) == []
    }

    /** The next turn may begin: the last one is closed, or the first one is open
        with the messages recorded in it. */
    ghost predicate TurnMayBegin(afterATurn: bool, earlier: seq<Prompt>)
      reads this
    {
      if afterATurn then Between() && turns != []
      else Inv() && current == PromptEvents(earlier) && newMessages == TurnsMessages(turns) + Prompted(earlier)
    }

    /** One turn, and unless it ended the run a look at the queue. */
    method RunTurnAndPoll(afterATurn: bool, queued: seq<AgentMessage>, ghost earlier: seq<Prompt>)
      returns (next: Next, pending: seq<AgentMessage>, ghost cut: Cut)
      requires TurnMayBegin(afterATurn, earlier)
      requires forall k :: Starts(hooks.stream(k).events) <= 1
      modifies this
      ensures context == initial + newMessages && tick >= old(tick)
      ensures next == Over(true) ==> GoodRun(events, turns, newMessages) && Ended(events) == newMessages
      ensures next == Over(true) ==> turns != [] && Stopped()
      ensures next == Over(false) ==> CutRun(events, turns, cut, newMessages) && Ended(events) == newMessages
      ensures next == Over(false) ==> Refused(hooks, old(tick), tick)
      ensures next.GoOn? ==>
        && TurnMayBegin(true, []) && |turns| == |old(turns)| + 1
        && (pending == [] ==> LookedAgain(next.decision == Some(Continue)))
    {
      hide PromptEvents, TurnsMessages, TurnsEvents, Prompted, Ended, RunEvents, WholeTurns, GoodRun, CutRun, Refused,
           Given, DeclareToolChanges, Due, DueAt, Declarations, CallsOf, Starts;
      next, cut := RunTurn(afterATurn, queued, if afterATurn then [] else earlier);
      pending := [];
      if next.GoOn? {
        var now := Tick();
        pending := hooks.steering(now);
      }
    }

    /** The double loop. It stops watching after `fuel` turns. */
    method RunLoop(fuel: nat, ghost earlier: seq<Prompt>) returns (outcome: Outcome, ghost cut: Cut)
      requires Inv() && current == PromptEvents(earlier) && newMessages == TurnsMessages(turns) + Prompted(earlier)
      requires forall k :: Starts(hooks.stream(k).events) <= 1
      modifies this
      ensures context == initial + newMessages
      ensures outcome.Completed? ==> GoodRun(events, turns, newMessages) && Ended(events) == newMessages
      ensures outcome.Failed? ==> CutRun(events, turns, cut, newMessages) && Ended(events) == newMessages
      ensures outcome.Completed? ==> turns != [] && (Stopped() || RanOut())
      ensures outcome.Failed? ==> Refused(hooks, old(tick), tick)
      ensures outcome.Unwatched? ==> |turns| == |old(turns)| + fuel
    {
      hide PromptEvents, TurnsMessages, TurnsEvents, Prompted, Ended, RunEvents, WholeTurns, GoodRun, CutRun,
           Refused, Starts, Inv, Stopped;
      cut := InPrompts([], Custom("", ""));
      var left: nat := fuel;
      var afterATurn, explicitContinuation := false, false;
      var now := Tick();
      var pending := hooks.steering(now);
      while true
        invariant TurnMayBegin(afterATurn, earlier)
        invariant tick >= old(tick) && |turns| + left == |old(turns)| + fuel
        decreases left
      {
        var hasMoreToolCalls := true;
        ghost var before := left;
        while hasMoreToolCalls || pending != []
          invariant TurnMayBegin(afterATurn, earlier)
          invariant tick >= old(tick) && |turns| + left == |old(turns)| + fuel
          invariant afterATurn && !hasMoreToolCalls && pending == [] ==> LookedAgain(explicitContinuation)
          invariant left <= before && (left == before ==> hasMoreToolCalls) && (left < before ==> afterATurn)
          decreases left
        {
          if left == 0 {
            InvContext();
            return Unwatched, cut;
          }
          left := left - 1;
          var next;
          ghost var asked := tick;
          next, pending, cut := RunTurnAndPoll(afterATurn, pending, earlier);
          match next {
            case Over(ok) =>
              if !ok {
                RefusedWidens(hooks, old(tick), asked, tick);
              }
              return if ok then Completed else Failed, cut;
            case GoOn(more, decision) =>
              afterATurn, hasMoreToolCalls := true, more;
              explicitContinuation := decision == Some(Continue);
          }
          if hasMoreToolCalls || pending != [] {
            explicitContinuation := false;
          }
        }
        now := Tick();
        var followUpMessages := hooks.followUp(now);
        if followUpMessages != [] {
          explicitContinuation := false;
          pending := followUpMessages;
        } else if explicitContinuation {
          explicitContinuation := false;
        } else {
          break;
        }
      }
      FinishRun();
      outcome := Completed;
    }

    lemma InvContext()
      requires Inv() || Between()
      ensures context == initial + newMessages
    {
    }

    method EmitStart()
      requires events == [] && turns == [] && newMessages == [] && context == initial
      modifies this`events, this`current
      ensures Inv() && current == [] == PromptEvents([]) && newMessages == TurnsMessages(turns) + Prompted([])
    {
      events, current := [AgentStart, TurnStart], [];
      assert events == RunEvents(turns, current);
    }

    /** A run with prompts: on success and on failure alike the final context is
        the initial one and the new messages, which are also what the events
        finished and what the end of the run reports. */
    method TryRun(prompts: seq<AgentMessage>, fuel: nat) returns (outcome: Outcome, ghost cut: Cut)
      requires events == [] && turns == [] && newMessages == [] && context == initial
      requires forall k :: Starts(hooks.stream(k).events) <= 1
      modifies this
      ensures context == initial + newMessages
      ensures outcome.Completed? ==> GoodRun(events, turns, newMessages) && Ended(events) == newMessages
      ensures outcome.Failed? ==> CutRun(events, turns, cut, newMessages) && Ended(events) == newMessages
      ensures outcome.Completed? ==> turns != [] && (Stopped() || RanOut())
      ensures outcome.Failed? ==> Refused(hooks, old(tick), tick)
      ensures outcome.Unwatched? ==> |turns| == fuel
    {
      hide TurnsMessages, TurnsEvents, Ended, RunEvents, WholeTurns, GoodRun, CutRun;
      var initialMessages := DeclareToolChanges(context, Declarations(tools), prompts, tick);
      EmitStart();
      var ok;
      ghost var ps;
      ok, ps := PushMessages(initialMessages);
      NoPrompts();
      ConcatNothing(TurnsMessages(turns));
      ConcatNothing(PromptEvents(ps));
      if !ok {
        cut := InPrompts(ps, initialMessages[|ps|]);
        ConcatNothing(CutEvents(cut));
        FailRun(cut);
        return Failed, cut;
      }
      outcome, cut := RunLoop(fuel, ps);
    }

    /** Going on from the context: refused without a message, or after one of the
        assistant. */
    method RunContinue(fuel: nat) returns (outcome: Option<Outcome>, ghost cut: Cut)
      requires events == [] && turns == [] && newMessages == [] && context == initial
      requires forall k :: Starts(hooks.stream(k).events) <= 1
      modifies this
      ensures outcome.None? <==> initial == [] || Role(initial[|initial| - 1]) == "assistant"
      ensures outcome.None? ==> events == [] && newMessages == []
      ensures context == initial + newMessages
      ensures outcome == Some(Completed) ==> GoodRun(events, turns, newMessages) && Ended(events) == newMessages
      ensures outcome == Some(Failed) ==> CutRun(events, turns, cut, newMessages) && Ended(events) == newMessages
      ensures outcome == Some(Completed) ==> turns != [] && (Stopped() || RanOut())
      ensures outcome == Some(Failed) ==> Refused(hooks, old(tick), tick)
      ensures outcome == Some(Unwatched) ==> |turns| == fuel
    {
      cut := InPrompts([], Custom("", ""));
      if context == [] || Role(context[|context| - 1]) == "assistant" {
        ConcatNothing(initial);
        return None, cut;
      }
      EmitStart();
      var o;
      o, cut := RunLoop(fuel, []);
      outcome := Some(o);
    }
  }

  datatype Next = Over(ok: bool) | GoOn(hasMoreToolCalls: bool, decision: Option<Decision>)

  lemma NoPrompts()
    ensures PromptEvents([]) == [] && Prompted([]) == []
  {
  }

  lemma {:induction false} PromptsConcat(a: seq<Prompt>, b: seq<Prompt>)
    ensures PromptEvents(a + b) == PromptEvents(a) + PromptEvents(b)
    ensures Prompted(a + b) == Prompted(a) + Prompted(b)
    decreases |b|
  {
    if b == [] {
      assert a + b == a;
    } else {
      var init, last := b[..|b| - 1], b[|b| - 1];
      assert (a + b)[..|a + b| - 1] == a + init && (a + b)[|a + b| - 1] == last;
      PromptsConcat(a, init);
      ConcatAssociates(PromptEvents(a), PromptEvents(init), [MessageStart(last.given), MessageEnd(last.finalized)]);
      ConcatAssociates(Prompted(a), Prompted(init), [last.finalized]);
    }
  }

  function FindTool(tools: seq<AgentTool>, name: string): Option<AgentTool> {
    if tools == [] then None
    else if tools[0].declaration.name == name then Some(tools[0])
    else FindTool(tools[1..], name)
  }

  predicate NeedsTurnAlone(tools: seq<AgentTool>, name: string) {
    FindTool(tools, name).Some? && FindTool(tools, name).value.sequential
  }

  lemma TurnEventsAre(t: Turn)
    ensures [TurnStart] + (PromptEvents(t.prompts) + ReplyEvents(t.first, t.partials, t.reply) + t.batch)
      + [TurnEnd(Reply(t.reply), t.results)] == TurnEvents(t)
  {
    hide PromptEvents, ReplyEvents;
    ConcatAssociates([TurnStart], PromptEvents(t.prompts) + ReplyEvents(t.first, t.partials, t.reply), t.batch);
    ConcatAssociates([TurnStart], PromptEvents(t.prompts), ReplyEvents(t.first, t.partials, t.reply));
  }

  lemma EmptyBatch(calls: seq<ToolCall>)
    ensures ReadBatch(calls, []) == Batch(0, multiset{}, multiset{}, [], None)
    ensures Answers([]) == [] && OneAtATime(calls, [])
  {
    var none: seq<Event> := [];
    assert none[..0] == none;
  }

  /** A call that starts, ends and is answered before the next one. */
  lemma OneCall(calls: seq<ToolCall>, i: nat, results: seq<ToolResult>, isError: bool)
    requires i < |calls|
    ensures var id := calls[i].id;
      var none: multiset<string> := multiset{};
      && BatchStep(calls, Batch(i, none, none, results, None), ToolStart(id, calls[i].name))
         == Batch(i + 1, multiset{id}, none, results, None)
      && BatchStep(calls, Batch(i + 1, multiset{id}, none, results, None), ToolEnd(id, isError))
         == Batch(i + 1, none, multiset{id}, results, None)
      && multiset{id} - multiset{id} == none
  {
    var id := calls[i].id;
    assert multiset{} + multiset{id} == multiset{id} && multiset{id} - multiset{id} == multiset{};
  }

  /** The result message of a call that ended. */
  lemma OneAnswer(calls: seq<ToolCall>, b: Batch, r: ToolResult)
    requires b.Batch? && b.open.None? && r.toolCallId in b.ended
    requires |b.results| < |calls| && r.toolCallId == calls[|b.results|].id
    ensures var b1 := BatchStep(calls, b, MessageStart(Answer(r)));
      var b2 := BatchStep(calls, b1, MessageEnd(Answer(r)));
      && b2 == Batch(b.started, b.running, b.ended - multiset{r.toolCallId}, b.results + [r], None)
      && (Alone(b) ==> Alone(b1) && Alone(b2))
  {
  }

  lemma NoTasks()
    ensures Unfinished([]) == multiset{} && FinishedIds([]) == multiset{}
  {
  }

  lemma NextId(calls: seq<ToolCall>, i: nat, n: nat)
    requires i < n <= |calls|
    ensures calls[i].id in Ids(calls[i..n])
    ensures Ids(calls[i..n]) - multiset{calls[i].id} == Ids(calls[i + 1..n])
  {
    IdsDropFirst(calls[i..n]);
    assert calls[i..n][0] == calls[i] && calls[i..n][1..] == calls[i + 1..n];
    assert multiset{calls[i].id} + Ids(calls[i + 1..n]) - multiset{calls[i].id} == Ids(calls[i + 1..n]);
  }

  lemma NoIds(calls: seq<ToolCall>, n: nat)
    requires n <= |calls|
    ensures Ids(calls[n..n]) == multiset{}
  {
  }

  lemma StartTask(calls: seq<ToolCall>, tasks: seq<Task>, c: ToolCall, isError: bool)
    requires |tasks| < |calls| && c == calls[|tasks|]
    ensures var running := Unfinished(tasks);
      && BatchStep(calls, Batch(|tasks|, running, FinishedIds(tasks), [], None), ToolStart(c.id, c.name))
         == Batch(|tasks| + 1, running + multiset{c.id}, FinishedIds(tasks), [], None)
      && BatchStep(
           calls, Batch(|tasks| + 1, running + multiset{c.id}, FinishedIds(tasks), [], None), ToolEnd(c.id, isError))
         == Batch(|tasks| + 1, running + multiset{}, FinishedIds(tasks) + multiset{c.id}, [], None)
      && FinishedIds(tasks) + multiset{} == FinishedIds(tasks)
  {
    hide Unfinished, FinishedIds;
    MiddleOut(Unfinished(tasks), multiset{}, c.id);
    assert Unfinished(tasks) + multiset{c.id} + multiset{} == Unfinished(tasks) + multiset{c.id};
    assert Unfinished(tasks) + multiset{} + multiset{} == Unfinished(tasks) + multiset{};
  }

  lemma TaskEnds(calls: seq<ToolCall>, tasks: seq<Task>, c: ToolCall, isError: bool)
    requires c.id in Unfinished(tasks)
    ensures BatchStep(calls, Batch(|tasks|, Unfinished(tasks), FinishedIds(tasks), [], None), ToolEnd(c.id, isError))
      == Batch(|tasks|, Unfinished(tasks) - multiset{c.id}, FinishedIds(tasks) + multiset{c.id}, [], None)
  {
    hide Unfinished, FinishedIds;
  }

  lemma TaskReports(calls: seq<ToolCall>, tasks: seq<Task>, c: ToolCall)
    requires c.id in Unfinished(tasks)
    ensures BatchStep(calls, Batch(|tasks|, Unfinished(tasks), FinishedIds(tasks), [], None), ToolUpdate(c.id))
      == Batch(|tasks|, Unfinished(tasks), FinishedIds(tasks), [], None)
  {
    hide Unfinished, FinishedIds;
  }

  lemma NothingShown()
    ensures Starts([]) == 0 && Shown([]) == []
  {
  }

  lemma ShownPush(es: seq<StreamEvent>, e: StreamEvent)
    ensures Starts(es + [e]) == Starts(es) + if e.Start? then 1 else 0
    ensures Shown(es + [e]) == if e.Start? || Starts(es) > 0 then Shown(es) + [e.partial] else Shown(es)
  {
    assert (es + [e])[..|es|] == es;
  }

  lemma {:induction false} PromptedIs(ps: seq<Prompt>, ms: seq<AgentMessage>)
    requires |ps| == |ms| && forall i :: 0 <= i < |ps| ==> ps[i].finalized == ms[i]
    ensures Prompted(ps) == ms
    decreases |ps|
  {
    if ps != [] {
      PromptedIs(ps[..|ps| - 1], ms[..|ms| - 1]);
      assert ms == ms[..|ms| - 1] + [ms[|ms| - 1]];
    }
  }

  lemma FirstUpdates(first: AssistantMessage)
    ensures [MessageStart(Reply(first))] + Updates([]) == [MessageStart(Reply(first))]
  {
  }

  lemma AppendTwo(a: seq<Event>, b: seq<Event>, x: Event, y: Event)
    ensures a + b + [x] + [y] == a + (b + [x, y])
  {
  }

  lemma AppendUpdate(before: seq<Event>, first: AssistantMessage, partials: seq<AssistantMessage>, a: AssistantMessage)
    ensures before + ([MessageStart(Reply(first))] + Updates(partials)) + [MessageUpdate(Reply(a))]
      == before + ([MessageStart(Reply(first))] + Updates(partials + [a]))
  {
    UpdatesPush(partials, a);
    ConcatAssociates([MessageStart(Reply(first))], Updates(partials), [MessageUpdate(Reply(a))]);
    ConcatAssociates(before, [MessageStart(Reply(first))] + Updates(partials), [MessageUpdate(Reply(a))]);
  }
}
