/** The events of an agent run and the shape a run gives them. */
module AgentEvents {
  import opened Options
  import opened Seqs
  import opened Messages
  import opened DeclareTools

  datatype Event =
    | AgentStart
    | AgentEnd(messages: seq<AgentMessage>)
    | TurnStart
    | TurnEnd(message: AgentMessage, toolResults: seq<ToolResult>)
    | MessageStart(message: AgentMessage)
    | MessageUpdate(message: AgentMessage)
    | MessageEnd(message: AgentMessage)
    | ToolStart(id: string, name: string)
    | ToolUpdate(id: string)
    | ToolEnd(id: string, isError: bool)

  function Reply(a: AssistantMessage): AgentMessage { Chat(Assistant(a)) }
  function Answer(r: ToolResult): AgentMessage { Chat(Result(r)) }

  /** The messages that were finished, in order. */
  function Ended(es: seq<Event>): seq<AgentMessage> {
    if es == [] then []
    else
      var last := es[|es| - 1];
      Ended(es[..|es| - 1]) + (if last.MessageEnd? then [last.message] else [])
  }

  lemma {:induction false} EndedConcat(a: seq<Event>, b: seq<Event>)
    ensures Ended(a + b) == Ended(a) + Ended(b)
    decreases |b|
  {
    if b == [] {
      assert a + b == a;
    } else {
      assert (a + b)[..|a + b| - 1] == a + b[..|b| - 1];
      EndedConcat(a, b[..|b| - 1]);
    }
  }

  lemma EndedPush(es: seq<Event>, e: Event)
    ensures Ended(es + [e]) == if e.MessageEnd? then Ended(es) + [e.message] else Ended(es)
  {
    assert (es + [e])[..|es|] == es;
  }

  // ---------------------------------------------------------------------------
  // A batch of tool calls
  // ---------------------------------------------------------------------------

  /** Reading a batch: how many calls have started, which run, which ended and
      wait for their result message, the result messages, and the open one. */
  datatype Batch =
    | Batch(started: nat, running: multiset<string>, ended: multiset<string>,
            results: seq<ToolResult>, open: Option<ToolResult>)
    | Wrong

  const EMPTY_BATCH := Batch(0, multiset{}, multiset{}, [], None)

  /** Calls start in order; a call ends once and after it started; result
      messages come in call order, each after the end of its call. */
  function BatchStep(calls: seq<ToolCall>, b: Batch, e: Event): Batch {
    match b
    case Wrong => Wrong
    case Batch(started, running, ended, results, open) =>
      match e
      case ToolStart(id, name) =>
        if started < |calls| && id == calls[started].id && name == calls[started].name && open.None?
        then Batch(started + 1, running + multiset{id}, ended, results, open) else Wrong
      case ToolUpdate(id) => if id in running && open.None? then b else Wrong
      case ToolEnd(id, _) =>
        if id in running && open.None?
        then Batch(started, running - multiset{id}, ended + multiset{id}, results, open) else Wrong
      case MessageStart(Chat(Result(r))) =>
        if open.None? && |results| < |calls| && r.toolCallId == calls[|results|].id && r.toolCallId in ended
        then Batch(started, running, ended, results, Some(r)) else Wrong
      case MessageEnd(Chat(Result(r))) =>
        if open == Some(r) && r.toolCallId in ended
        then Batch(started, running, ended - multiset{r.toolCallId}, results + [r], None) else Wrong
      case _ => Wrong
  }

  function ReadBatch(calls: seq<ToolCall>, es: seq<Event>): Batch {
    if es == [] then EMPTY_BATCH else BatchStep(calls, ReadBatch(calls, es[..|es| - 1]), es[|es| - 1])
  }

  /** A batch in which everything that started ended and was answered. */
  predicate WholeBatch(calls: seq<ToolCall>, es: seq<Event>, results: seq<ToolResult>) {
    ReadBatch(calls, es) == Batch(|results|, multiset{}, multiset{}, results, None)
  }

  lemma ReadPush(calls: seq<ToolCall>, es: seq<Event>, e: Event)
    ensures ReadBatch(calls, es + [e]) == BatchStep(calls, ReadBatch(calls, es), e)
  {
    assert (es + [e])[..|es|] == es;
  }

  /** At most one call has started and is not answered yet. */
  predicate Alone(b: Batch) { b.Batch? ==> |b.running| + |b.ended| <= 1 }

  /** At no point are two calls under way. */
  ghost predicate OneAtATime(calls: seq<ToolCall>, es: seq<Event>) {
    forall k :: 0 <= k <= |es| ==> Alone(ReadBatch(calls, es[..k]))
  }

  lemma OneAtATimePush(calls: seq<ToolCall>, es: seq<Event>, e: Event)
    requires OneAtATime(calls, es) && Alone(ReadBatch(calls, es + [e]))
    ensures OneAtATime(calls, es + [e])
  {
    forall k | 0 <= k <= |es| + 1
      ensures Alone(ReadBatch(calls, (es + [e])[..k]))
    {
      if k <= |es| {
        assert (es + [e])[..k] == es[..k];
      } else {
        assert (es + [e])[..k] == es + [e];
      }
    }
  }

  ghost predicate Counts(calls: seq<ToolCall>, b: Batch) {
    b.Batch? ==>
      && |b.running| + |b.ended| + |b.results| == b.started <= |calls|
      && (b.open.Some? ==> |b.results| < |calls| && b.open.value.toolCallId == calls[|b.results|].id)
      && forall i :: 0 <= i < |b.results| ==> i < |calls| && b.results[i].toolCallId == calls[i].id
  }

  lemma StepCounts(calls: seq<ToolCall>, b: Batch, e: Event)
    requires Counts(calls, b)
    ensures Counts(calls, BatchStep(calls, b, e))
  {
  }

  /** However the calls of a batch interleave: every call that started is running,
      waits for its result or has it, and the results answer a prefix of the
      calls by id and in order. */
  lemma {:induction false} ResultsMatchCalls(calls: seq<ToolCall>, es: seq<Event>)
    ensures Counts(calls, ReadBatch(calls, es))
  {
    if es != [] {
      ResultsMatchCalls(calls, es[..|es| - 1]);
      StepCounts(calls, ReadBatch(calls, es[..|es| - 1]), es[|es| - 1]);
    }
  }

  /** How often an id started, ended and was answered. */
  datatype Tally = Tally(starts: int, ends: int, answers: int)

  function TallyStep(t: Tally, e: Event, id: string): Tally {
    match e
    case ToolStart(i, _) => if i == id then Tally(t.starts + 1, t.ends, t.answers) else t
    case ToolEnd(i, _) => if i == id then Tally(t.starts, t.ends + 1, t.answers) else t
    case MessageEnd(Chat(Result(r))) => if r.toolCallId == id then Tally(t.starts, t.ends, t.answers + 1) else t
    case _ => t
  }

  function TallyOf(es: seq<Event>, id: string): Tally {
    if es == [] then Tally(0, 0, 0) else TallyStep(TallyOf(es[..|es| - 1], id), es[|es| - 1], id)
  }

  ghost predicate Tallies(b: Batch, t: Tally, id: string) {
    b.Batch? ==> t.starts - t.ends == b.running[id] && t.ends - t.answers == b.ended[id]
  }

  lemma OneMore(ids: multiset<string>, i: string, id: string)
    ensures (ids + multiset{i})[id] == ids[id] + if i == id then 1 else 0
    ensures i in ids ==> (ids - multiset{i})[id] == ids[id] - if i == id then 1 else 0
  {
  }

  lemma StepTallies(calls: seq<ToolCall>, b: Batch, t: Tally, e: Event, id: string)
    requires Tallies(b, t, id)
    ensures Tallies(BatchStep(calls, b, e), TallyStep(t, e, id), id)
  {
    if b.Batch? {
      match e
      case ToolStart(i, _) =>
        OneMore(b.running, i, id);
      case ToolEnd(i, _) =>
        OneMore(b.running, i, id);
        OneMore(b.ended, i, id);
      case MessageEnd(Chat(Result(r))) =>
        OneMore(b.ended, r.toolCallId, id);
      case _ =>
    }
  }

  /** In every prefix of a batch an id has at least as many starts as ends and at
      least as many ends as result messages. */
  lemma {:induction false} StartEndResult(calls: seq<ToolCall>, es: seq<Event>, id: string)
    requires ReadBatch(calls, es).Batch?
    ensures var t := TallyOf(es, id);
      var b := ReadBatch(calls, es);
      t.starts - t.ends == b.running[id] && t.ends - t.answers == b.ended[id]
  {
    hide BatchStep, TallyStep;
    if es != [] {
      var before := ReadBatch(calls, es[..|es| - 1]);
      WrongStays(calls, before, es[|es| - 1]);
      StartEndResult(calls, es[..|es| - 1], id);
      StepTallies(calls, before, TallyOf(es[..|es| - 1], id), es[|es| - 1], id);
    }
  }

  lemma WrongStays(calls: seq<ToolCall>, b: Batch, e: Event)
    ensures BatchStep(calls, b, e).Batch? ==> b.Batch?
  {
  }

  /** In a whole batch all three counts are the same. */
  lemma WholeBatchTally(calls: seq<ToolCall>, es: seq<Event>, results: seq<ToolResult>, id: string)
    requires WholeBatch(calls, es, results)
    ensures var t := TallyOf(es, id); t.starts == t.ends == t.answers
    ensures |results| <= |calls| && forall i :: 0 <= i < |results| ==> results[i].toolCallId == calls[i].id
  {
    StartEndResult(calls, es, id);
    ResultsMatchCalls(calls, es);
  }

  // ---------------------------------------------------------------------------
  // Turns
  // ---------------------------------------------------------------------------

  /** A message given to the run and what the finalizing hook made of it. */
  datatype Prompt = Prompt(given: AgentMessage, finalized: AgentMessage)

  /** A whole turn: messages given, the reply with its partial states, and its tools. */
  datatype Turn = Turn(
    prompts: seq<Prompt>,
    first: AssistantMessage,
    partials: seq<AssistantMessage>,
    reply: AssistantMessage,
    batch: seq<Event>,
    results: seq<ToolResult>)

  function PromptEvents(ps: seq<Prompt>): seq<Event> {
    if ps == [] then []
    else PromptEvents(ps[..|ps| - 1]) + [MessageStart(ps[|ps| - 1].given), MessageEnd(ps[|ps| - 1].finalized)]
  }

  function Prompted(ps: seq<Prompt>): seq<AgentMessage> {
    if ps == [] then [] else Prompted(ps[..|ps| - 1]) + [ps[|ps| - 1].finalized]
  }

  function Given(ps: seq<Prompt>): seq<AgentMessage> {
    if ps == [] then [] else Given(ps[..|ps| - 1]) + [ps[|ps| - 1].given]
  }

  function Updates(partials: seq<AssistantMessage>): seq<Event> {
    if partials == [] then []
    else Updates(partials[..|partials| - 1]) + [MessageUpdate(Reply(partials[|partials| - 1]))]
  }

  function Answers(results: seq<ToolResult>): seq<AgentMessage> {
    if results == [] then [] else Answers(results[..|results| - 1]) + [Answer(results[|results| - 1])]
  }

  function ReplyEvents(first: AssistantMessage, partials: seq<AssistantMessage>, reply: AssistantMessage): seq<Event> {
    [MessageStart(Reply(first))] + Updates(partials) + [MessageEnd(Reply(reply))]
  }

  function TurnEvents(t: Turn): seq<Event> {
    [TurnStart] + PromptEvents(t.prompts) + ReplyEvents(t.first, t.partials, t.reply) + t.batch
    + [TurnEnd(Reply(t.reply), t.results)]
  }

  function TurnMessages(t: Turn): seq<AgentMessage> { Prompted(t.prompts) + [Reply(t.reply)] + Answers(t.results) }

  function TurnsEvents(ts: seq<Turn>): seq<Event> {
    if ts == [] then [] else TurnsEvents(ts[..|ts| - 1]) + TurnEvents(ts[|ts| - 1])
  }

  function TurnsMessages(ts: seq<Turn>): seq<AgentMessage> {
    if ts == [] then [] else TurnsMessages(ts[..|ts| - 1]) + TurnMessages(ts[|ts| - 1])
  }

  predicate WholeTurn(t: Turn) { WholeBatch(CallsOf(t.reply.content), t.batch, t.results) }

  predicate WholeTurns(ts: seq<Turn>) { forall i :: 0 <= i < |ts| ==> WholeTurn(ts[i]) }

  lemma {:induction false} GivenConcat(a: seq<Prompt>, b: seq<Prompt>)
    ensures Given(a + b) == Given(a) + Given(b)
    decreases |b|
  {
    if b == [] {
      assert a + b == a;
    } else {
      assert (a + b)[..|a + b| - 1] == a + b[..|b| - 1];
      GivenConcat(a, b[..|b| - 1]);
    }
  }

  lemma {:induction false} GivenIs(ps: seq<Prompt>, ms: seq<AgentMessage>)
    requires |ps| == |ms| && forall i :: 0 <= i < |ps| ==> ps[i].given == ms[i]
    ensures Given(ps) == ms
    decreases |ps|
  {
    if ps != [] {
      GivenIs(ps[..|ps| - 1], ms[..|ms| - 1]);
      assert ms == ms[..|ms| - 1] + [ms[|ms| - 1]];
    }
  }

  lemma TurnsPush(ts: seq<Turn>, t: Turn)
    ensures TurnsEvents(ts + [t]) == TurnsEvents(ts) + TurnEvents(t)
    ensures TurnsMessages(ts + [t]) == TurnsMessages(ts) + TurnMessages(t)
    ensures WholeTurns(ts) && WholeTurn(t) ==> WholeTurns(ts + [t])
  {
    assert (ts + [t])[..|ts|] == ts;
  }

  lemma PromptsPush(ps: seq<Prompt>, p: Prompt)
    ensures PromptEvents(ps + [p]) == PromptEvents(ps) + [MessageStart(p.given), MessageEnd(p.finalized)]
    ensures Prompted(ps + [p]) == Prompted(ps) + [p.finalized]
  {
    assert (ps + [p])[..|ps|] == ps;
  }

  lemma UpdatesPush(partials: seq<AssistantMessage>, a: AssistantMessage)
    ensures Updates(partials + [a]) == Updates(partials) + [MessageUpdate(Reply(a))]
  {
    assert (partials + [a])[..|partials|] == partials;
  }

  lemma AnswersPush(results: seq<ToolResult>, r: ToolResult)
    ensures Answers(results + [r]) == Answers(results) + [Answer(r)]
  {
    assert (results + [r])[..|results|] == results;
  }

  lemma {:induction false} PromptsEnded(ps: seq<Prompt>)
    ensures Ended(PromptEvents(ps)) == Prompted(ps)
  {
    if ps != [] {
      var init, p := ps[..|ps| - 1], ps[|ps| - 1];
      PromptsEnded(init);
      var es := PromptEvents(init) + [MessageStart(p.given)];
      EndedPush(PromptEvents(init), MessageStart(p.given));
      EndedPush(es, MessageEnd(p.finalized));
      assert PromptEvents(ps) == es + [MessageEnd(p.finalized)];
    }
  }

  lemma {:induction false} UpdatesEnded(partials: seq<AssistantMessage>)
    ensures Ended(Updates(partials)) == []
  {
    if partials != [] {
      UpdatesEnded(partials[..|partials| - 1]);
      EndedPush(Updates(partials[..|partials| - 1]), MessageUpdate(Reply(partials[|partials| - 1])));
    }
  }

  lemma ReplyEnded(first: AssistantMessage, partials: seq<AssistantMessage>, reply: AssistantMessage)
    ensures Ended(ReplyEvents(first, partials, reply)) == [Reply(reply)]
  {
    var opening := [MessageStart(Reply(first))];
    EndedPush([], MessageStart(Reply(first)));
    assert [] + opening == opening;
    UpdatesEnded(partials);
    EndedConcat(opening, Updates(partials));
    EndedPush(opening + Updates(partials), MessageEnd(Reply(reply)));
  }

  lemma {:induction false} BatchEnded(calls: seq<ToolCall>, es: seq<Event>)
    requires ReadBatch(calls, es).Batch?
    ensures Ended(es) == Answers(ReadBatch(calls, es).results)
  {
    if es != [] {
      var init := es[..|es| - 1];
      BatchEnded(calls, init);
      if es[|es| - 1].MessageEnd? {
        AnswersPush(ReadBatch(calls, init).results, es[|es| - 1].message.message.result);
      }
    }
  }

  /** The messages a whole turn finishes are its prompts, its reply and its results. */
  lemma TurnEnded(t: Turn)
    requires WholeTurn(t)
    ensures Ended(TurnEvents(t)) == TurnMessages(t)
  {
    hide PromptEvents, ReplyEvents, Ended, ReadBatch;
    var calls := CallsOf(t.reply.content);
    var a, b := [TurnStart] + PromptEvents(t.prompts), ReplyEvents(t.first, t.partials, t.reply);
    EndedConcat([TurnStart], PromptEvents(t.prompts));
    NothingEnded(TurnStart);
    PromptsEnded(t.prompts);
    ReplyEnded(t.first, t.partials, t.reply);
    BatchEnded(calls, t.batch);
    EndedConcat(a, b);
    EndedConcat(a + b, t.batch);
    EndedPush(a + b + t.batch, TurnEnd(Reply(t.reply), t.results));
    ConcatNothing(Prompted(t.prompts));
  }

  lemma NothingEnded(e: Event)
    requires !e.MessageEnd?
    ensures Ended([e]) == []
  {
    assert [e][..0] == [];
  }

  lemma {:induction false} TurnsEnded(ts: seq<Turn>)
    requires WholeTurns(ts)
    ensures Ended(TurnsEvents(ts)) == TurnsMessages(ts)
  {
    if ts != [] {
      TurnsEnded(ts[..|ts| - 1]);
      TurnEnded(ts[|ts| - 1]);
      EndedConcat(TurnsEvents(ts[..|ts| - 1]), TurnEvents(ts[|ts| - 1]));
    }
  }

  // ---------------------------------------------------------------------------
  // Runs
  // ---------------------------------------------------------------------------

  /** How far a turn got that failed. */
  datatype Cut =
    | InPrompts(prompts: seq<Prompt>, given: AgentMessage)
    | InReply(prompts: seq<Prompt>, first: AssistantMessage, partials: seq<AssistantMessage>)
    | InTools(prompts: seq<Prompt>, first: AssistantMessage, partials: seq<AssistantMessage>,
              reply: AssistantMessage, batch: seq<Event>)

  function CutEvents(c: Cut): seq<Event> {
    match c
    case InPrompts(ps, given) => PromptEvents(ps) + [MessageStart(given)]
    case InReply(ps, first, partials) => PromptEvents(ps) + ([MessageStart(Reply(first))] + Updates(partials))
    case InTools(ps, first, partials, reply, batch) => PromptEvents(ps) + ReplyEvents(first, partials, reply) + batch
  }

  function CutMessages(c: Cut): seq<AgentMessage> {
    match c
    case InPrompts(ps, _) => Prompted(ps)
    case InReply(ps, _, _) => Prompted(ps)
    case InTools(ps, _, _, reply, batch) => Prompted(ps) + [Reply(reply)] + Ended(batch)
  }

  predicate GoodCut(c: Cut) { c.InTools? ==> ReadBatch(CallsOf(c.reply.content), c.batch).Batch? }

  /** A run that came to its end: whole turns between one start and one end. */
  ghost predicate GoodRun(es: seq<Event>, ts: seq<Turn>, messages: seq<AgentMessage>) {
    && WholeTurns(ts)
    && es == [AgentStart] + TurnsEvents(ts) + [AgentEnd(messages)]
    && messages == TurnsMessages(ts)
  }

  /** A run that failed: the last turn is cut off, and its end is missing. */
  ghost predicate CutRun(es: seq<Event>, ts: seq<Turn>, cut: Cut, messages: seq<AgentMessage>) {
    && WholeTurns(ts) && GoodCut(cut)
    && es == [AgentStart] + TurnsEvents(ts) + ([TurnStart] + CutEvents(cut)) + [AgentEnd(messages)]
    && messages == TurnsMessages(ts) + CutMessages(cut)
  }

  lemma FrameEnded(middle: seq<Event>, messages: seq<AgentMessage>)
    ensures Ended([AgentStart] + middle + [AgentEnd(messages)]) == Ended(middle)
  {
    NothingEnded(AgentStart);
    EndedConcat([AgentStart], middle);
    EndedPush([AgentStart] + middle, AgentEnd(messages));
  }

  /** The finished messages of a run are the messages its end reports. */
  lemma GoodRunEnded(es: seq<Event>, ts: seq<Turn>, messages: seq<AgentMessage>)
    requires GoodRun(es, ts, messages)
    ensures Ended(es) == messages
  {
    FrameEnded(TurnsEvents(ts), messages);
    TurnsEnded(ts);
  }

  lemma CutEnded(cut: Cut)
    requires GoodCut(cut)
    ensures Ended(CutEvents(cut)) == CutMessages(cut)
  {
    hide PromptEvents, Prompted, Updates, Ended, ReadBatch;
    PromptsEnded(cut.prompts);
    match cut
    case InPrompts(ps, given) =>
      EndedPush(PromptEvents(ps), MessageStart(given));
    case InReply(ps, first, partials) =>
      EndedConcat(PromptEvents(ps), [MessageStart(Reply(first))] + Updates(partials));
      EndedConcat([MessageStart(Reply(first))], Updates(partials));
      NothingEnded(MessageStart(Reply(first)));
      UpdatesEnded(partials);
    case InTools(ps, first, partials, reply, batch) =>
      EndedConcat(PromptEvents(ps) + ReplyEvents(first, partials, reply), batch);
      EndedConcat(PromptEvents(ps), ReplyEvents(first, partials, reply));
      ReplyEnded(first, partials, reply);
  }

  lemma CutRunEnded(es: seq<Event>, ts: seq<Turn>, cut: Cut, messages: seq<AgentMessage>)
    requires CutRun(es, ts, cut, messages)
    ensures Ended(es) == messages
  {
    hide TurnsEvents, CutEvents, Ended, CutMessages, TurnsMessages, WholeTurns, GoodCut;
    ConcatAssociates([AgentStart], TurnsEvents(ts), [TurnStart] + CutEvents(cut));
    FrameEnded(TurnsEvents(ts) + ([TurnStart] + CutEvents(cut)), messages);
    EndedConcat(TurnsEvents(ts), [TurnStart] + CutEvents(cut));
    EndedConcat([TurnStart], CutEvents(cut));
    NothingEnded(TurnStart);
    TurnsEnded(ts);
    CutEnded(cut);
  }

  // ---------------------------------------------------------------------------
  // Counting starts and ends
  // ---------------------------------------------------------------------------

  /** What every listener can check without knowing the turns. */
  datatype Balance = Balance(runStarts: nat, runEnds: nat, turnStarts: nat, turnEnds: nat, starts: nat, ends: nat)

  function Add(a: Balance, b: Balance): Balance {
    Balance(a.runStarts + b.runStarts, a.runEnds + b.runEnds, a.turnStarts + b.turnStarts,
            a.turnEnds + b.turnEnds, a.starts + b.starts, a.ends + b.ends)
  }

  const ZERO := Balance(0, 0, 0, 0, 0, 0)

  function Weigh(e: Event): Balance {
    match e
    case AgentStart => Balance(1, 0, 0, 0, 0, 0)
    case AgentEnd(_) => Balance(0, 1, 0, 0, 0, 0)
    case TurnStart => Balance(0, 0, 1, 0, 0, 0)
    case TurnEnd(_, _) => Balance(0, 0, 0, 1, 0, 0)
    case MessageStart(_) => Balance(0, 0, 0, 0, 1, 0)
    case MessageEnd(_) => Balance(0, 0, 0, 0, 0, 1)
    case _ => ZERO
  }

  function Weight(es: seq<Event>): Balance {
    if es == [] then ZERO else Add(Weight(es[..|es| - 1]), Weigh(es[|es| - 1]))
  }

  lemma AddAssociates(a: Balance, b: Balance, c: Balance)
    ensures Add(a, Add(b, c)) == Add(Add(a, b), c)
  {
  }

  lemma AddZero(a: Balance)
    ensures Add(a, ZERO) == a && Add(ZERO, a) == a
  {
  }

  lemma {:induction false} WeightConcat(a: seq<Event>, b: seq<Event>)
    ensures Weight(a + b) == Add(Weight(a), Weight(b))
    decreases |b|
  {
    hide Add, Weigh;
    if b == [] {
      assert a + b == a;
      AddZero(Weight(a));
    } else {
      var init, last := b[..|b| - 1], b[|b| - 1];
      assert (a + b)[..|a + b| - 1] == a + init && (a + b)[|a + b| - 1] == last;
      WeightConcat(a, init);
      AddAssociates(Weight(a), Weight(init), Weigh(last));
    }
  }

  lemma WeightOne(e: Event)
    ensures Weight([e]) == Weigh(e)
  {
    hide Add, Weigh;
    assert [e][..0] == [];
    AddZero(Weigh(e));
  }

  lemma {:induction false} PromptsWeight(ps: seq<Prompt>)
    ensures Weight(PromptEvents(ps)) == Balance(0, 0, 0, 0, |ps|, |ps|)
  {
    if ps != [] {
      PromptsWeight(ps[..|ps| - 1]);
      PromptWeight(PromptEvents(ps[..|ps| - 1]), ps[|ps| - 1]);
    } else {
      assert PromptEvents(ps) == [];
    }
  }

  lemma PromptWeight(before: seq<Event>, p: Prompt)
    ensures Weight(before + [MessageStart(p.given), MessageEnd(p.finalized)])
      == Add(Weight(before), Balance(0, 0, 0, 0, 1, 1))
  {
    hide Weight, Weigh;
    var started := before + [MessageStart(p.given)];
    WeightPushMessage(before, p.given);
    WeightPushMessage(started, p.finalized);
    assert started + [MessageEnd(p.finalized)] == before + [MessageStart(p.given), MessageEnd(p.finalized)];
  }

  lemma {:induction false} UpdatesWeight(partials: seq<AssistantMessage>)
    ensures Weight(Updates(partials)) == ZERO
  {
    if partials != [] {
      UpdatesWeight(partials[..|partials| - 1]);
      WeightOne(MessageUpdate(Reply(partials[|partials| - 1])));
      WeightConcat(Updates(partials[..|partials| - 1]), [MessageUpdate(Reply(partials[|partials| - 1]))]);
    }
  }

  ghost predicate Weighs(b: Batch, w: Balance) {
    b.Batch? ==> w == Balance(0, 0, 0, 0, |b.results| + (if b.open.Some? then 1 else 0), |b.results|)
  }

  lemma StepWeighs(calls: seq<ToolCall>, b: Batch, w: Balance, e: Event)
    requires Weighs(b, w)
    ensures Weighs(BatchStep(calls, b, e), Add(w, Weigh(e)))
  {
  }

  lemma {:induction false} BatchWeight(calls: seq<ToolCall>, es: seq<Event>)
    ensures Weighs(ReadBatch(calls, es), Weight(es))
  {
    hide BatchStep, Weigh, Add;
    if es != [] {
      BatchWeight(calls, es[..|es| - 1]);
      StepWeighs(calls, ReadBatch(calls, es[..|es| - 1]), Weight(es[..|es| - 1]), es[|es| - 1]);
    }
  }

  lemma WeighMessage(m: AgentMessage)
    ensures Weigh(MessageStart(m)) == Balance(0, 0, 0, 0, 1, 0)
    ensures Weigh(MessageEnd(m)) == Balance(0, 0, 0, 0, 0, 1)
  {
  }

  lemma WeightStart(m: AgentMessage)
    ensures Weight([MessageStart(m)]) == Balance(0, 0, 0, 0, 1, 0)
  {
    hide *;
    WeightOne(MessageStart(m));
    WeighMessage(m);
  }

  lemma WeightEnd(m: AgentMessage)
    ensures Weight([MessageEnd(m)]) == Balance(0, 0, 0, 0, 0, 1)
  {
    hide *;
    WeightOne(MessageEnd(m));
    WeighMessage(m);
  }

  /** What a message start or end adds. */
  lemma WeightPushMessage(es: seq<Event>, m: AgentMessage)
    ensures Weight(es + [MessageStart(m)]) == Add(Weight(es), Balance(0, 0, 0, 0, 1, 0))
    ensures Weight(es + [MessageEnd(m)]) == Add(Weight(es), Balance(0, 0, 0, 0, 0, 1))
  {
    hide *;
    WeightStart(m);
    WeightEnd(m);
    WeightConcat(es, [MessageStart(m)]);
    WeightConcat(es, [MessageEnd(m)]);
  }

  lemma ReplyOpens(first: AssistantMessage, partials: seq<AssistantMessage>)
    ensures Weight([MessageStart(Reply(first))] + Updates(partials)) == Balance(0, 0, 0, 0, 1, 0)
  {
    hide *;
    WeightStart(Reply(first));
    UpdatesWeight(partials);
    WeightConcat([MessageStart(Reply(first))], Updates(partials));
    AddZero(Balance(0, 0, 0, 0, 1, 0));
  }

  lemma ReplyWeight(first: AssistantMessage, partials: seq<AssistantMessage>, reply: AssistantMessage)
    ensures Weight(ReplyEvents(first, partials, reply)) == Balance(0, 0, 0, 0, 1, 1)
  {
    hide Updates, Weight, Weigh, Reply, Add;
    var opening := [MessageStart(Reply(first))] + Updates(partials);
    assert ReplyEvents(first, partials, reply) == opening + [MessageEnd(Reply(reply))];
    ReplyOpens(first, partials);
    WeightPushMessage(opening, Reply(reply));
    StartThenEnd();
  }

  lemma StartThenEnd()
    ensures Add(Balance(0, 0, 0, 0, 1, 0), Balance(0, 0, 0, 0, 0, 1)) == Balance(0, 0, 0, 0, 1, 1)
  {
  }

  lemma TurnWeight(t: Turn)
    requires WholeTurn(t)
    ensures var n := |t.prompts| + 1 + |t.results|;
      Weight(TurnEvents(t)) == Balance(0, 0, 1, 1, n, n)
  {
    hide PromptEvents, ReplyEvents, Updates, Weight, ReadBatch;
    var head, reply := [TurnStart] + PromptEvents(t.prompts), ReplyEvents(t.first, t.partials, t.reply);
    WeightConcat([TurnStart], PromptEvents(t.prompts));
    WeightOne(TurnStart);
    PromptsWeight(t.prompts);
    ReplyWeight(t.first, t.partials, t.reply);
    BatchWeight(CallsOf(t.reply.content), t.batch);
    WeightConcat(head, reply);
    WeightConcat(head + reply, t.batch);
    WeightOne(TurnEnd(Reply(t.reply), t.results));
    WeightConcat(head + reply + t.batch, [TurnEnd(Reply(t.reply), t.results)]);
  }

  lemma {:induction false} TurnsWeight(ts: seq<Turn>)
    requires WholeTurns(ts)
    ensures var w := Weight(TurnsEvents(ts));
      w.runStarts == w.runEnds == 0 && w.turnStarts == w.turnEnds == |ts| && w.starts == w.ends
  {
    if ts != [] {
      TurnsWeight(ts[..|ts| - 1]);
      TurnWeight(ts[|ts| - 1]);
      WeightConcat(TurnsEvents(ts[..|ts| - 1]), TurnEvents(ts[|ts| - 1]));
    }
  }

  /** A run that came to its end starts and ends once, and its turns and messages
      are all closed. */
  lemma GoodRunIsBalanced(es: seq<Event>, ts: seq<Turn>, messages: seq<AgentMessage>)
    requires GoodRun(es, ts, messages)
    ensures var w := Weight(es);
      w.runStarts == 1 == w.runEnds && w.turnStarts == w.turnEnds == |ts| && w.starts == w.ends == |messages|
    ensures es[|es| - 1].AgentEnd?
  {
    hide TurnsEvents, Weight, WholeTurns;
    TurnsWeight(ts);
    WeightOne(AgentStart);
    WeightOne(AgentEnd(messages));
    WeightConcat([AgentStart], TurnsEvents(ts));
    WeightConcat([AgentStart] + TurnsEvents(ts), [AgentEnd(messages)]);
    GoodRunEnded(es, ts, messages);
    EndsAreCounted(es);
  }

  lemma {:induction false} EndsAreCounted(es: seq<Event>)
    ensures Weight(es).ends == |Ended(es)|
  {
    if es != [] {
      EndsAreCounted(es[..|es| - 1]);
    }
  }

  lemma CutWeight(cut: Cut)
    requires GoodCut(cut)
    ensures var w := Weight(CutEvents(cut));
      && w.runStarts == w.runEnds == w.turnStarts == w.turnEnds == 0
      && w.ends <= w.starts <= w.ends + 1
  {
    hide PromptEvents, ReplyEvents, Updates, Weight, ReadBatch;
    PromptsWeight(cut.prompts);
    match cut
    case InPrompts(ps, given) =>
      WeightStart(given);
      WeightConcat(PromptEvents(ps), [MessageStart(given)]);
    case InReply(ps, first, partials) =>
      ReplyOpens(first, partials);
      WeightConcat(PromptEvents(ps), [MessageStart(Reply(first))] + Updates(partials));
    case InTools(ps, first, partials, reply, batch) =>
      ReplyWeight(first, partials, reply);
      BatchWeight(CallsOf(reply.content), batch);
      WeightConcat(PromptEvents(ps), ReplyEvents(first, partials, reply));
      WeightConcat(PromptEvents(ps) + ReplyEvents(first, partials, reply), batch);
  }

  /** A failed run starts and ends once too, with one turn and at most one
      message left open. */
  lemma CutRunIsBalanced(es: seq<Event>, ts: seq<Turn>, cut: Cut, messages: seq<AgentMessage>)
    requires CutRun(es, ts, cut, messages)
    ensures var w := Weight(es);
      && w.runStarts == 1 == w.runEnds && w.turnStarts == |ts| + 1 && w.turnEnds == |ts|
      && w.ends == |messages| && w.ends <= w.starts <= w.ends + 1
    ensures es[|es| - 1].AgentEnd?
  {
    hide TurnsEvents, CutEvents, Weight, WholeTurns, GoodCut;
    var middle := [TurnStart] + CutEvents(cut);
    TurnsWeight(ts);
    CutWeight(cut);
    WeightOne(AgentStart);
    WeightOne(TurnStart);
    WeightOne(AgentEnd(messages));
    WeightConcat([TurnStart], CutEvents(cut));
    WeightConcat([AgentStart], TurnsEvents(ts));
    WeightConcat([AgentStart] + TurnsEvents(ts), middle);
    WeightConcat([AgentStart] + TurnsEvents(ts) + middle, [AgentEnd(messages)]);
    CutRunEnded(es, ts, cut, messages);
    EndsAreCounted(es);
  }
}
