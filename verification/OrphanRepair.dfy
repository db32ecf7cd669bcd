/** Every tool call of a history must be answered before the conversation goes
    on: failed assistant messages are dropped, system messages wait for the
    results, and calls without a result get a synthesized one. */
module OrphanRepair {
  import opened Options
  import opened Seqs
  import opened Messages
  import opened HistoryRewrite

  /** A message of the result, with where it comes from. */
  datatype Entry = Kept(message: Message) | Synthesized(result: ToolResult)

  function Plain(entries: seq<Entry>): seq<Message> {
    if entries == [] then []
    else
      [match entries[0] case Kept(m) => m case Synthesized(r) => Result(r)] + Plain(entries[1..])
  }

  function KeptOnly(entries: seq<Entry>): seq<Message> {
    if entries == [] then []
    else (if entries[0].Kept? then [entries[0].message] else []) + KeptOnly(entries[1..])
  }

  datatype State = State(
    result: seq<Entry>,
    pending: seq<ToolCall>,
    answered: set<string>,
    held: seq<Message>)

  const START := State([], [], {}, [])

  function NoResult(c: ToolCall, now: nat): ToolResult {
    ToolResult(c.id, c.name, [UserText("No result provided", None)], true, now)
  }

  function Missing(calls: seq<ToolCall>, answered: set<string>, now: nat): seq<Entry> {
    if calls == [] then []
    else
      (if calls[0].id in answered then [] else [Synthesized(NoResult(calls[0], now))])
      + Missing(calls[1..], answered, now)
  }

  function AllKept(ms: seq<Message>): seq<Entry> {
    if ms == [] then [] else [Kept(ms[0])] + AllKept(ms[1..])
  }

  function Close(st: State, now: nat): State {
    State(
      st.result + Missing(st.pending, st.answered, now) + AllKept(st.held),
      [],
      if st.pending == [] then st.answered else {},
      [])
  }

  predicate Failed(a: AssistantMessage) { a.stopReason.Error? || a.stopReason.Aborted? }

  function Push(st: State, m: Message): State { st.(result := st.result + [Kept(m)]) }

  function Step(st: State, m: Message, now: nat): State {
    match m
    case Assistant(a) =>
      var closed := Close(st, now);
      if Failed(a) then closed
      else
        var calls := CallsOf(a.content);
        Push(if calls == [] then closed else closed.(pending := calls, answered := {}), m)
    case Result(r) => Push(st.(answered := st.answered + {r.toolCallId}), m)
    case System(_) => if st.pending != [] then st.(held := st.held + [m]) else Push(st, m)
    case User(_) => Push(Close(st, now), m)
  }

  function Run(st: State, ms: seq<Message>, now: nat): State
    decreases |ms|
  {
    if ms == [] then st else Run(Step(st, ms[0], now), ms[1..], now)
  }

  function Repaired(ms: seq<Message>, now: nat): seq<Entry> { Close(Run(START, ms, now), now).result }

  function Repair(ms: seq<Message>, now: nat): seq<Message> { Plain(Repaired(ms, now)) }

  lemma {:induction false} PlainConcat(a: seq<Entry>, b: seq<Entry>)
    ensures Plain(a + b) == Plain(a) + Plain(b)
  {
    if a == [] {
      assert a + b == b;
    } else {
      assert (a + b)[1..] == a[1..] + b;
      PlainConcat(a[1..], b);
    }
  }

  lemma {:induction false} KeptOnlyConcat(a: seq<Entry>, b: seq<Entry>)
    ensures KeptOnly(a + b) == KeptOnly(a) + KeptOnly(b)
  {
    if a == [] {
      assert a + b == b;
    } else {
      assert (a + b)[1..] == a[1..] + b;
      KeptOnlyConcat(a[1..], b);
      if a[0].Kept? {
        ConcatAssociates([a[0].message], KeptOnly(a[1..]), KeptOnly(b));
      } else {
        ConcatNothing(KeptOnly(a[1..]));
        ConcatNothing(KeptOnly(a[1..] + b));
      }
    }
  }

  lemma {:induction false} AllKeptFacts(ms: seq<Message>)
    ensures Plain(AllKept(ms)) == ms && KeptOnly(AllKept(ms)) == ms
  {
    if ms != [] {
      AllKeptFacts(ms[1..]);
      assert ms == [ms[0]] + ms[1..];
      assert AllKept(ms)[1..] == AllKept(ms[1..]);
    }
  }

  lemma PlainPush(result: seq<Entry>, m: Message)
    ensures Plain(result + [Kept(m)]) == Plain(result) + [m]
  {
    PlainConcat(result, [Kept(m)]);
    assert [Kept(m)][1..] == [] && Plain([Kept(m)]) == [m] + [];
  }

  // ---------------------------------------------------------------------------
  // The loops
  // ---------------------------------------------------------------------------

  method ClosePending(result: seq<Message>, pending: seq<ToolCall>, answered: set<string>, held: seq<Message>, now: nat)
    returns (result': seq<Message>, answered': set<string>)
    ensures forall entries :: Plain(entries) == result ==>
      var closed := Close(State(entries, pending, answered, held), now);
      result' == Plain(closed.result) && answered' == closed.answered
  {
    result' := result;
    answered' := answered;
    if pending != [] {
      for i := 0 to |pending|
        invariant result' + Plain(Missing(pending[i..], answered, now))
          == result + Plain(Missing(pending, answered, now))
      {
        ghost var rest := Missing(pending[i + 1..], answered, now);
        assert pending[i..][0] == pending[i] && pending[i..][1..] == pending[i + 1..];
        if pending[i].id !in answered {
          var r := NoResult(pending[i], now);
          assert ([Synthesized(r)] + rest)[1..] == rest;
          ConcatAssociates(result', [Result(r)], Plain(rest));
          result' := result' + [Result(r)];
        } else {
          ConcatNothing(rest);
        }
      }
      ConcatNothing(result');
      answered' := {};
    } else {
      ConcatNothing(result);
    }
    assert result' == result + Plain(Missing(pending, answered, now));
    result' := result' + held;
    forall entries | Plain(entries) == result
      ensures result' == Plain(Close(State(entries, pending, answered, held), now).result)
    {
      PlainConcat(entries + Missing(pending, answered, now), AllKept(held));
      PlainConcat(entries, Missing(pending, answered, now));
      AllKeptFacts(held);
    }
  }

  method RepairOrphans(messages: seq<Message>, now: nat) returns (result: seq<Message>)
    ensures result == Repair(messages, now)
  {
    result := [];
    var pending: seq<ToolCall> := [];
    var answered: set<string> := {};
    var held: seq<Message> := [];
    ghost var entries: seq<Entry> := [];
    for i := 0 to |messages|
      invariant Plain(entries) == result
      invariant Run(State(entries, pending, answered, held), messages[i..], now) == Run(START, messages, now)
    {
      var m := messages[i];
      assert messages[i..][0] == m && messages[i..][1..] == messages[i + 1..];
      ghost var before := State(entries, pending, answered, held);
      match m {
        case Assistant(a) =>
          result, answered := ClosePending(result, pending, answered, held, now);
          entries, pending, held := Close(before, now).result, [], [];
          if !Failed(a) {
            var calls := CallsOf(a.content);
            if calls != [] {
              pending, answered := calls, {};
            }
            PlainPush(entries, m);
            result, entries := result + [m], entries + [Kept(m)];
          }
        case Result(r) =>
          PlainPush(entries, m);
          answered, result, entries := answered + {r.toolCallId}, result + [m], entries + [Kept(m)];
        case System(_) =>
          if pending != [] {
            held := held + [m];
          } else {
            PlainPush(entries, m);
            result, entries := result + [m], entries + [Kept(m)];
          }
        case User(_) =>
          result, answered := ClosePending(result, pending, answered, held, now);
          entries, pending, held := Close(before, now).result, [], [];
          PlainPush(entries, m);
          result, entries := result + [m], entries + [Kept(m)];
      }
      assert State(entries, pending, answered, held) == Step(before, m, now);
    }
    result, answered := ClosePending(result, pending, answered, held, now);
  }

  method TransformMessages(messages: seq<Message>, model: Model, normalize: Normalizer, now: nat)
    returns (result: seq<Message>)
    ensures result == Repair(Rewrite(map[], messages, model, normalize), now)
  {
    var transformed := RewriteHistory(messages, model, normalize);
    result := RepairOrphans(transformed, now);
  }

  // ---------------------------------------------------------------------------
  // Every call is answered at once
  // ---------------------------------------------------------------------------

  /** The ids answered by the results at the very front. */
  function LeadingIds(ms: seq<Message>): set<string> {
    if ms == [] || !ms[0].Result? then {} else {ms[0].result.toolCallId} + LeadingIds(ms[1..])
  }

  predicate AllIn(calls: seq<ToolCall>, ids: set<string>) { forall i :: 0 <= i < |calls| ==> calls[i].id in ids }

  /** No assistant message is a failed one, and the results right behind each
      assistant message answer all its calls. */
  predicate Answered(ms: seq<Message>) {
    ms == [] ||
    (Answered(ms[1..]) &&
     (ms[0].Assistant? ==>
        !Failed(ms[0].assistant) && AllIn(CallsOf(ms[0].assistant.content), LeadingIds(ms[1..]))))
  }

  predicate OnlyResults(ms: seq<Message>) { forall i :: 0 <= i < |ms| ==> ms[i].Result? }
  predicate OnlySystem(ms: seq<Message>) { forall i :: 0 <= i < |ms| ==> ms[i].System? }

  lemma {:induction false} LeadingIdsConcat(a: seq<Message>, b: seq<Message>)
    ensures LeadingIds(a) <= LeadingIds(a + b)
    ensures OnlyResults(a) ==> LeadingIds(a + b) == LeadingIds(a) + LeadingIds(b)
  {
    if a == [] {
      assert a + b == b;
    } else {
      assert (a + b)[1..] == a[1..] + b;
      LeadingIdsConcat(a[1..], b);
    }
  }

  lemma {:induction false} AnsweredConcat(a: seq<Message>, b: seq<Message>)
    requires Answered(a) && Answered(b)
    ensures Answered(a + b)
  {
    if a == [] {
      assert a + b == b;
    } else {
      assert (a + b)[1..] == a[1..] + b;
      AnsweredConcat(a[1..], b);
      LeadingIdsConcat(a[1..], b);
    }
  }

  lemma {:induction false} NoAssistantAnswered(ms: seq<Message>)
    requires forall i :: 0 <= i < |ms| ==> !ms[i].Assistant?
    ensures Answered(ms)
  {
    if ms != [] {
      NoAssistantAnswered(ms[1..]);
    }
  }

  /** What is synthesized are results, and they answer what was not answered. */
  lemma {:induction false} MissingAnswers(calls: seq<ToolCall>, answered: set<string>, now: nat)
    ensures var missing := Plain(Missing(calls, answered, now));
      OnlyResults(missing) && AllIn(calls, answered + LeadingIds(missing))
    ensures KeptOnly(Missing(calls, answered, now)) == []
  {
    if calls != [] {
      var rest := Missing(calls[1..], answered, now);
      MissingAnswers(calls[1..], answered, now);
      if calls[0].id in answered {
        ConcatNothing(rest);
      } else {
        var r := Synthesized(NoResult(calls[0], now));
        assert ([r] + rest)[1..] == rest;
        assert Plain([r] + rest) == [Result(r.result)] + Plain(rest);
        assert ([Result(r.result)] + Plain(rest))[1..] == Plain(rest);
      }
    }
  }

  /** While calls are pending, the result ends in their assistant message and the
      results seen so far; otherwise everything is answered. */
  ghost predicate Open(ms: seq<Message>, calls: seq<ToolCall>, answered: set<string>, at: nat) {
    && at < |ms| && Answered(ms[..at])
    && ms[at].Assistant? && !Failed(ms[at].assistant) && CallsOf(ms[at].assistant.content) == calls
    && OnlyResults(ms[at + 1..]) && LeadingIds(ms[at + 1..]) == answered
  }

  ghost predicate Inv(st: State) {
    && OnlySystem(st.held)
    && (if st.pending == [] then st.held == [] && Answered(Plain(st.result))
        else exists at: nat :: Open(Plain(st.result), st.pending, st.answered, at))
  }

  lemma ClosedPlain(st: State, now: nat)
    ensures Plain(Close(st, now).result)
      == Plain(st.result) + Plain(Missing(st.pending, st.answered, now)) + st.held
  {
    PlainConcat(st.result + Missing(st.pending, st.answered, now), AllKept(st.held));
    PlainConcat(st.result, Missing(st.pending, st.answered, now));
    AllKeptFacts(st.held);
  }

  /** An open end with results for the missing calls is answered. */
  lemma OpenEnds(ms: seq<Message>, calls: seq<ToolCall>, answered: set<string>, at: nat, more: seq<Message>)
    requires Open(ms, calls, answered, at) && OnlyResults(more) && AllIn(calls, answered + LeadingIds(more))
    ensures Answered(ms + more)
  {
    var results := ms[at + 1..] + more;
    LeadingIdsConcat(ms[at + 1..], more);
    NoAssistantAnswered(results);
    var tail := [ms[at]] + results;
    assert tail[1..] == results;
    assert Answered(tail);
    assert ms + more == ms[..at] + tail;
    AnsweredConcat(ms[..at], tail);
  }

  lemma CloseAnswers(st: State, now: nat)
    requires Inv(st)
    ensures Answered(Plain(Close(st, now).result))
  {
    var missing := Plain(Missing(st.pending, st.answered, now));
    ClosedPlain(st, now);
    MissingAnswers(st.pending, st.answered, now);
    NoAssistantAnswered(st.held);
    if st.pending == [] {
      ConcatNothing(Plain(st.result));
    } else {
      var at: nat :| Open(Plain(st.result), st.pending, st.answered, at);
      OpenEnds(Plain(st.result), st.pending, st.answered, at, missing);
    }
    AnsweredConcat(Plain(st.result) + missing, st.held);
  }

  lemma StepKeepsInv(st: State, m: Message, now: nat)
    requires Inv(st)
    ensures Inv(Step(st, m, now))
  {
    hide Close, Plain;
    var next := Step(st, m, now);
    match m
    case Assistant(a) =>
      CloseAnswers(st, now);
      Closed(st, now);
      if !Failed(a) {
        var before := Plain(Close(st, now).result);
        PlainPush(Close(st, now).result, m);
        if CallsOf(a.content) == [] {
          AnsweredOne(m);
          AnsweredConcat(before, [m]);
        } else {
          var after := before + [m];
          assert after[..|before|] == before && after[|before| + 1..] == [];
          assert Open(after, next.pending, next.answered, |before|);
        }
      }
    case Result(r) =>
      PlainPush(st.result, m);
      if st.pending == [] {
        AnsweredOne(m);
        AnsweredConcat(Plain(st.result), [m]);
      } else {
        var at: nat :| Open(Plain(st.result), st.pending, st.answered, at);
        OpenPush(Plain(st.result), st.pending, st.answered, at, m);
      }
    case System(_) =>
      if st.pending == [] {
        PlainPush(st.result, m);
        AnsweredOne(m);
        AnsweredConcat(Plain(st.result), [m]);
      }
    case User(_) =>
      CloseAnswers(st, now);
      Closed(st, now);
      PlainPush(Close(st, now).result, m);
      AnsweredOne(m);
      AnsweredConcat(Plain(Close(st, now).result), [m]);
  }

  lemma Closed(st: State, now: nat)
    ensures Close(st, now).pending == [] && Close(st, now).held == []
  {
  }

  lemma AnsweredOne(m: Message)
    requires m.Assistant? ==> !Failed(m.assistant) && CallsOf(m.assistant.content) == []
    ensures Answered([m])
  {
    assert [m][1..] == [] && Answered([]);
  }

  lemma OpenPush(ms: seq<Message>, calls: seq<ToolCall>, answered: set<string>, at: nat, m: Message)
    requires Open(ms, calls, answered, at) && m.Result?
    ensures Open(ms + [m], calls, answered + {m.result.toolCallId}, at)
  {
    var after := ms + [m];
    assert after[..at] == ms[..at] && after[at + 1..] == ms[at + 1..] + [m];
    LeadingIdsConcat(ms[at + 1..], [m]);
    assert LeadingIds([m]) == {m.result.toolCallId} + LeadingIds([m][1..]);
  }

  lemma {:induction false} RunKeepsInv(st: State, ms: seq<Message>, now: nat)
    requires Inv(st)
    ensures Inv(Run(st, ms, now))
    decreases |ms|
  {
    if ms != [] {
      StepKeepsInv(st, ms[0], now);
      RunKeepsInv(Step(st, ms[0], now), ms[1..], now);
    }
  }

  /** In every repaired history the results right behind each assistant message
      answer all its calls, and no failed assistant message is left. */
  lemma EveryCallIsAnswered(ms: seq<Message>, now: nat)
    ensures Answered(Repair(ms, now))
  {
    assert Inv(START);
    RunKeepsInv(START, ms, now);
    CloseAnswers(Run(START, ms, now), now);
  }

  // ---------------------------------------------------------------------------
  // Nothing else is lost or moved
  // ---------------------------------------------------------------------------

  function WithoutFailed(ms: seq<Message>): seq<Message> {
    if ms == [] then []
    else
      (if ms[0].Assistant? && Failed(ms[0].assistant) then [] else [ms[0]])
      + WithoutFailed(ms[1..])
  }

  /** The state holds the messages `done`, the system messages possibly late. */
  ghost predicate Conserves(st: State, done: seq<Message>) {
    && OnlySystem(st.held)
    && SystemOnly(KeptOnly(st.result)) + st.held == SystemOnly(done)
    && WithoutSystem(KeptOnly(st.result)) == WithoutSystem(WithoutFailed(done))
  }

  lemma {:induction false} WithoutFailedConcat(a: seq<Message>, b: seq<Message>)
    ensures WithoutFailed(a + b) == WithoutFailed(a) + WithoutFailed(b)
  {
    if a == [] {
      assert a + b == b;
    } else {
      assert (a + b)[1..] == a[1..] + b;
      WithoutFailedConcat(a[1..], b);
      ConcatAssociates(
        if a[0].Assistant? && Failed(a[0].assistant) then [] else [a[0]], WithoutFailed(a[1..]), WithoutFailed(b));
    }
  }

  lemma {:induction false} OnlySystemFacts(ms: seq<Message>)
    requires OnlySystem(ms)
    ensures SystemOnly(ms) == ms && WithoutSystem(ms) == []
  {
    if ms != [] {
      OnlySystemFacts(ms[1..]);
      assert ms == [ms[0]] + ms[1..];
    }
  }

  lemma One(m: Message)
    ensures SystemOnly([m]) == if m.System? then [m] else []
    ensures WithoutSystem([m]) == if m.System? then [] else [m]
    ensures WithoutFailed([m]) == if m.Assistant? && Failed(m.assistant) then [] else [m]
    ensures KeptOnly([Kept(m)]) == [m]
  {
    assert [m][1..] == [] && [Kept(m)][1..] == [];
  }

  lemma CloseKeeps(st: State, now: nat)
    ensures KeptOnly(Close(st, now).result) == KeptOnly(st.result) + st.held
  {
    var missing := Missing(st.pending, st.answered, now);
    KeptOnlyConcat(st.result + missing, AllKept(st.held));
    KeptOnlyConcat(st.result, missing);
    MissingAnswers(st.pending, st.answered, now);
    AllKeptFacts(st.held);
    ConcatNothing(KeptOnly(st.result));
  }

  lemma CloseConserves(st: State, done: seq<Message>, now: nat)
    requires Conserves(st, done)
    ensures Conserves(Close(st, now), done)
  {
    hide Close, KeptOnly, SystemOnly, WithoutSystem, WithoutFailed;
    var kept := KeptOnly(st.result);
    CloseKeeps(st, now);
    Closed(st, now);
    SystemOnlyConcat(kept, st.held);
    WithoutSystemConcat(kept, st.held);
    OnlySystemFacts(st.held);
    ConcatNothing(SystemOnly(done));
    ConcatNothing(WithoutSystem(kept));
  }

  /** Keeping one more message; a system message only when none is held. */
  lemma PushConserves(st: State, done: seq<Message>, m: Message)
    requires Conserves(st, done)
    requires m.System? ==> st.held == []
    requires m.Assistant? ==> !Failed(m.assistant)
    ensures Conserves(Push(st, m), done + [m])
  {
    One(m);
    KeptOnlyConcat(st.result, [Kept(m)]);
    SystemOnlyConcat(KeptOnly(st.result), [m]);
    WithoutSystemConcat(KeptOnly(st.result), [m]);
    SystemOnlyConcat(done, [m]);
    WithoutFailedConcat(done, [m]);
    WithoutSystemConcat(WithoutFailed(done), [m]);
  }

  lemma HoldConserves(st: State, done: seq<Message>, m: Message)
    requires Conserves(st, done) && m.System?
    ensures Conserves(st.(held := st.held + [m]), done + [m])
  {
    One(m);
    SystemOnlyConcat(done, [m]);
    WithoutFailedConcat(done, [m]);
    WithoutSystemConcat(WithoutFailed(done), [m]);
    ConcatAssociates(SystemOnly(KeptOnly(st.result)), st.held, [m]);
  }

  lemma DropConserves(st: State, done: seq<Message>, m: Message)
    requires Conserves(st, done) && m.Assistant? && Failed(m.assistant)
    ensures Conserves(st, done + [m])
  {
    One(m);
    SystemOnlyConcat(done, [m]);
    WithoutFailedConcat(done, [m]);
    ConcatNothing(SystemOnly(done));
    ConcatNothing(WithoutFailed(done));
  }

  lemma StepConserves(st: State, done: seq<Message>, m: Message, now: nat)
    requires Conserves(st, done) && (st.pending == [] ==> st.held == [])
    ensures Conserves(Step(st, m, now), done + [m])
  {
    hide Close, Conserves, Push, CallsOf;
    match m
    case Assistant(a) =>
      CloseConserves(st, done, now);
      var closed := Close(st, now);
      if Failed(a) {
        DropConserves(closed, done, m);
      } else {
        ConservesIgnores(closed, done, CallsOf(a.content), {});
        var ready :=
          if CallsOf(a.content) == [] then closed else closed.(pending := CallsOf(a.content), answered := {});
        PushConserves(ready, done, m);
      }
    case Result(r) =>
      ConservesIgnores(st, done, st.pending, st.answered + {r.toolCallId});
      PushConserves(st.(answered := st.answered + {r.toolCallId}), done, m);
    case System(_) =>
      if st.pending != [] {
        HoldConserves(st, done, m);
      } else {
        PushConserves(st, done, m);
      }
    case User(_) =>
      CloseConserves(st, done, now);
      PushConserves(Close(st, now), done, m);
  }

  lemma ConservesIgnores(st: State, done: seq<Message>, pending: seq<ToolCall>, answered: set<string>)
    requires Conserves(st, done)
    ensures Conserves(st.(pending := pending, answered := answered), done)
    ensures Conserves(st.(answered := answered), done)
  {
  }

  lemma {:induction false} RunConserves(st: State, done: seq<Message>, ms: seq<Message>, now: nat)
    requires Conserves(st, done) && Inv(st)
    ensures Conserves(Run(st, ms, now), done + ms)
    decreases |ms|
  {
    if ms == [] {
      ConcatNothing(done);
    } else {
      StepKeepsInv(st, ms[0], now);
      StepConserves(st, done, ms[0], now);
      RunConserves(Step(st, ms[0], now), done + [ms[0]], ms[1..], now);
      assert done + [ms[0]] + ms[1..] == done + ms;
    }
  }

  /** Without the synthesized results, the repaired history is the given one
      without the failed assistant messages: the system messages in their order
      and the others in theirs. */
  lemma OnlyFailedMessagesAreLost(ms: seq<Message>, now: nat)
    ensures SystemOnly(KeptOnly(Repaired(ms, now))) == SystemOnly(ms)
    ensures WithoutSystem(KeptOnly(Repaired(ms, now))) == WithoutSystem(WithoutFailed(ms))
  {
    assert Inv(START) && Conserves(START, []);
    RunConserves(START, [], ms, now);
    ConcatNothing(ms);
    CloseConserves(Run(START, ms, now), ms, now);
    ConcatNothing(SystemOnly(KeptOnly(Repaired(ms, now))));
  }

  // ---------------------------------------------------------------------------
  // Repairing twice
  // ---------------------------------------------------------------------------

  /** Where a message list stands: behind nothing open, among the results of an
      assistant message, behind a system message that follows them, or with a
      result behind such a system message. */
  datatype Phase = Idle | Results | Held | Broken

  function Scan(phase: Phase, m: Message): Phase {
    if phase.Broken? then Broken
    else match m
      case Assistant(a) => if CallsOf(a.content) == [] then Idle else Results
      case User(_) => Idle
      case System(_) => if phase.Idle? then Idle else Held
      case Result(_) => if phase.Held? then Broken else phase
  }

  function ScanAll(phase: Phase, ms: seq<Message>): Phase
    decreases |ms|
  {
    if ms == [] then phase else ScanAll(Scan(phase, ms[0]), ms[1..])
  }

  lemma {:induction false} ScanConcat(phase: Phase, a: seq<Message>, b: seq<Message>)
    ensures ScanAll(phase, a + b) == ScanAll(ScanAll(phase, a), b)
    decreases |a|
  {
    if a == [] {
      assert a + b == b;
    } else {
      assert (a + b)[1..] == a[1..] + b;
      ScanConcat(Scan(phase, a[0]), a[1..], b);
    }
  }

  lemma {:induction false} BrokenStays(ms: seq<Message>)
    ensures ScanAll(Broken, ms) == Broken
  {
    if ms != [] {
      BrokenStays(ms[1..]);
    }
  }

  lemma ScanPush(ms: seq<Message>, m: Message)
    ensures ScanAll(Idle, ms + [m]) == Scan(ScanAll(Idle, ms), m)
  {
    ScanConcat(Idle, ms, [m]);
    assert [m][1..] == [];
  }

  lemma {:induction false} ScanResults(phase: Phase, ms: seq<Message>)
    requires OnlyResults(ms) && !phase.Held?
    ensures ScanAll(phase, ms) == phase
  {
    if ms != [] {
      ScanResults(phase, ms[1..]);
    }
  }

  lemma {:induction false} ScanSystem(phase: Phase, ms: seq<Message>)
    requires OnlySystem(ms) && ms != []
    ensures ScanAll(phase, ms) == if phase.Idle? || phase.Broken? then phase else Held
    decreases |ms|
  {
    if |ms| > 1 {
      ScanSystem(Scan(phase, ms[0]), ms[1..]);
    } else {
      assert ms[1..] == [];
    }
  }

  /** Every call answered at once and no result behind a later system message. */
  predicate Settled(ms: seq<Message>) { Answered(ms) && !ScanAll(Idle, ms).Broken? }

  /** What is still to be read settles the calls that are pending. */
  ghost predicate Agrees(st: State, phase: Phase, rest: seq<Message>) {
    && Answered(rest) && !ScanAll(phase, rest).Broken?
    && (phase.Idle? <==> st.pending == [])
    && (!phase.Held? ==> st.held == [])
    && (phase.Results? ==> AllIn(st.pending, st.answered + LeadingIds(rest)))
    && (phase.Held? ==> AllIn(st.pending, st.answered))
  }

  lemma {:induction false} NoneMissing(calls: seq<ToolCall>, answered: set<string>, now: nat)
    requires AllIn(calls, answered)
    ensures Missing(calls, answered, now) == []
  {
    if calls != [] {
      assert calls[0].id in answered;
      NoneMissing(calls[1..], answered, now);
    }
  }

  /** Nothing is synthesized where everything is answered. */
  lemma CloseSettled(st: State, phase: Phase, rest: seq<Message>, now: nat)
    requires Agrees(st, phase, rest) && (rest == [] || !rest[0].Result?)
    ensures Plain(Close(st, now).result) == Plain(st.result) + st.held
  {
    assert LeadingIds(rest) == {};
    assert phase != Broken by {
      if phase == Broken {
        BrokenStays(rest);
      }
    }
    assert AllIn(st.pending, st.answered);
    NoneMissing(st.pending, st.answered, now);
    ClosedPlain(st, now);
    ConcatNothing(Plain(st.result));
  }

  lemma StepSettled(st: State, phase: Phase, rest: seq<Message>, now: nat)
    requires rest != [] && Agrees(st, phase, rest)
    ensures var next := Step(st, rest[0], now);
      && Agrees(next, Scan(phase, rest[0]), rest[1..])
      && Plain(next.result) + next.held == Plain(st.result) + st.held + [rest[0]]
  {
    hide Close, Plain, ScanAll, CallsOf, AllIn;
    var m := rest[0];
    ScanSplit(phase, rest);
    match m
    case Assistant(a) =>
      CloseSettled(st, phase, rest, now);
      Closed(st, now);
      PlainPush(Close(st, now).result, m);
      ConcatNothing(Plain(st.result) + st.held + [m]);
      AllInUnion(CallsOf(a.content), {}, LeadingIds(rest[1..]));
    case Result(r) =>
      PlainPush(st.result, m);
      ConcatNothing(Plain(st.result));
      ConcatNothing(Plain(st.result) + [m]);
      assert st.answered + LeadingIds(rest) == st.answered + {r.toolCallId} + LeadingIds(rest[1..]);
    case System(_) =>
      assert LeadingIds(rest) == {};
      ConcatAssociates(Plain(st.result), st.held, [m]);
      PlainPush(st.result, m);
      ConcatNothing(Plain(st.result));
      ConcatNothing(Plain(st.result) + [m]);
      assert st.answered + {} == st.answered;
    case User(_) =>
      CloseSettled(st, phase, rest, now);
      Closed(st, now);
      PlainPush(Close(st, now).result, m);
      ConcatNothing(Plain(st.result) + st.held + [m]);
  }

  lemma AllInUnion(calls: seq<ToolCall>, none: set<string>, ids: set<string>)
    requires AllIn(calls, ids)
    ensures AllIn(calls, none + ids)
  {
  }

  lemma ScanSplit(phase: Phase, ms: seq<Message>)
    requires ms != [] && !ScanAll(phase, ms).Broken?
    ensures ScanAll(phase, ms) == ScanAll(Scan(phase, ms[0]), ms[1..]) && !phase.Broken? && !Scan(phase, ms[0]).Broken?
  {
    BrokenStays(ms[1..]);
  }

  lemma {:induction false} RunSettled(st: State, phase: Phase, rest: seq<Message>, now: nat)
    requires Agrees(st, phase, rest)
    ensures Plain(Close(Run(st, rest, now), now).result) == Plain(st.result) + st.held + rest
    decreases |rest|
  {
    if rest == [] {
      CloseSettled(st, phase, rest, now);
      ConcatNothing(Plain(st.result) + st.held);
    } else {
      var next := Step(st, rest[0], now);
      StepSettled(st, phase, rest, now);
      RunSettled(next, Scan(phase, rest[0]), rest[1..], now);
      assert Plain(st.result) + st.held + [rest[0]] + rest[1..] == Plain(st.result) + st.held + rest;
    }
  }

  /** A settled history is left exactly as it is. */
  lemma SettledIsKept(ms: seq<Message>, now: nat)
    requires Settled(ms)
    ensures Repair(ms, now) == ms
  {
    RunSettled(START, Idle, ms, now);
    ConcatNothing(ms);
  }

  /** Since the last assistant message with calls: a system message, a failed
      assistant message. */
  datatype Segment = Segment(open: bool, system: bool, failed: bool)

  const OUTSIDE := Segment(false, false, false)

  function Advance(seg: Segment, m: Message): Segment {
    match m
    case Assistant(a) => if Failed(a) then seg.(failed := true) else Segment(CallsOf(a.content) != [], false, false)
    case User(_) => OUTSIDE
    case System(_) => seg.(system := true)
    case Result(_) => seg
  }

  /** Some result comes after both a system message and a failed assistant
      message, before the next message of the user or a good one of the assistant. */
  predicate Strands(seg: Segment, ms: seq<Message>)
    decreases |ms|
  {
    ms != [] && ((ms[0].Result? && seg.open && seg.system && seg.failed) || Strands(Advance(seg, ms[0]), ms[1..]))
  }

  /** The phase of the result, as the messages read so far tell it. */
  ghost predicate Tracks(st: State, seg: Segment) {
    && OnlySystem(st.held)
    && (st.pending != [] <==> seg.open && !seg.failed)
    && (st.held != [] <==> seg.open && !seg.failed && seg.system)
    && ScanAll(Idle, Plain(st.result)) ==
      if !seg.open then Idle else if seg.failed && seg.system then Held else Results
  }

  lemma CloseTracks(st: State, seg: Segment, now: nat)
    requires Tracks(st, seg)
    ensures ScanAll(Idle, Plain(Close(st, now).result))
      == if !seg.open then Idle else if seg.system then Held else Results
  {
    var missing := Plain(Missing(st.pending, st.answered, now));
    var phase := ScanAll(Idle, Plain(st.result));
    ClosedPlain(st, now);
    ScanConcat(Idle, Plain(st.result) + missing, st.held);
    ScanConcat(Idle, Plain(st.result), missing);
    MissingAnswers(st.pending, st.answered, now);
    if st.pending != [] {
      ScanResults(phase, missing);
      if st.held != [] {
        ScanSystem(phase, st.held);
      }
    }
  }

  lemma StepTracks(st: State, seg: Segment, m: Message, now: nat)
    requires Tracks(st, seg)
    ensures var next := Step(st, m, now);
      if m.Result? && seg.open && seg.system && seg.failed then ScanAll(Idle, Plain(next.result)) == Broken
      else Tracks(next, Advance(seg, m))
  {
    hide Close, Plain, ScanAll, CallsOf;
    match m
    case Assistant(a) =>
      CloseTracks(st, seg, now);
      Closed(st, now);
      PlainPush(Close(st, now).result, m);
      ScanPush(Plain(Close(st, now).result), m);
    case User(_) =>
      CloseTracks(st, seg, now);
      Closed(st, now);
      PlainPush(Close(st, now).result, m);
      ScanPush(Plain(Close(st, now).result), m);
    case Result(_) =>
      PlainPush(st.result, m);
      ScanPush(Plain(st.result), m);
    case System(_) =>
      PlainPush(st.result, m);
      ScanPush(Plain(st.result), m);
  }

  /** What is in the result stays in front of it. */
  lemma {:induction false} RunExtends(st: State, ms: seq<Message>, now: nat) returns (more: seq<Message>)
    ensures Plain(Close(Run(st, ms, now), now).result) == Plain(st.result) + more
    decreases |ms|
  {
    if ms == [] {
      ClosedPlain(st, now);
      more := Plain(Missing(st.pending, st.answered, now)) + st.held;
      ConcatAssociates(Plain(st.result), Plain(Missing(st.pending, st.answered, now)), st.held);
    } else {
      var first := StepExtends(st, ms[0], now);
      var later := RunExtends(Step(st, ms[0], now), ms[1..], now);
      ConcatAssociates(Plain(st.result), first, later);
      more := first + later;
    }
  }

  lemma StepExtends(st: State, m: Message, now: nat) returns (more: seq<Message>)
    ensures Plain(Step(st, m, now).result) == Plain(st.result) + more
  {
    hide Close, Plain;
    var closing := Plain(Missing(st.pending, st.answered, now)) + st.held;
    ClosedPlain(st, now);
    ConcatAssociates(Plain(st.result), Plain(Missing(st.pending, st.answered, now)), st.held);
    PlainPush(Close(st, now).result, m);
    PlainPush(st.result, m);
    ConcatAssociates(Plain(st.result), closing, [m]);
    ConcatNothing(Plain(st.result));
    more :=
      if m.Assistant? then (if Failed(m.assistant) then closing else closing + [m])
      else if m.User? then closing + [m]
      else if m.System? && st.pending != [] then []
      else [m];
  }

  lemma {:induction false} RunTracks(st: State, seg: Segment, ms: seq<Message>, now: nat)
    requires Tracks(st, seg)
    ensures ScanAll(Idle, Plain(Close(Run(st, ms, now), now).result)).Broken? <==> Strands(seg, ms)
    decreases |ms|
  {
    if ms == [] {
      CloseTracks(st, seg, now);
    } else {
      var next := Step(st, ms[0], now);
      StepTracks(st, seg, ms[0], now);
      if ms[0].Result? && seg.open && seg.system && seg.failed {
        var more := RunExtends(next, ms[1..], now);
        ScanConcat(Idle, Plain(next.result), more);
        BrokenStays(more);
      } else {
        RunTracks(next, Advance(seg, ms[0]), ms[1..], now);
      }
    }
  }

  lemma {:induction false} NoFailureNoStranding(seg: Segment, ms: seq<Message>)
    requires !seg.failed && forall i :: 0 <= i < |ms| ==> ms[i].Assistant? ==> !Failed(ms[i].assistant)
    ensures !Strands(seg, ms)
    decreases |ms|
  {
    if ms != [] {
      NoFailureNoStranding(Advance(seg, ms[0]), ms[1..]);
    }
  }

  lemma {:induction false} AnsweredHasNoFailed(ms: seq<Message>)
    requires Answered(ms)
    ensures forall i :: 0 <= i < |ms| ==> ms[i].Assistant? ==> !Failed(ms[i].assistant)
  {
    if ms != [] {
      AnsweredHasNoFailed(ms[1..]);
      forall i | 0 <= i < |ms|
        ensures ms[i].Assistant? ==> !Failed(ms[i].assistant)
      {
        if i > 0 {
          assert ms[i] == ms[1..][i - 1];
        }
      }
    }
  }

  /** The repaired history is settled exactly when no result is stranded. */
  lemma SettledExactly(ms: seq<Message>, now: nat)
    ensures Settled(Repair(ms, now)) <==> !Strands(OUTSIDE, ms)
  {
    EveryCallIsAnswered(ms, now);
    assert Plain([]) == [];
    RunTracks(START, OUTSIDE, ms, now);
  }

  /** Repairing again changes nothing exactly when no result was stranded. */
  lemma RepairTwiceExactly(ms: seq<Message>, now: nat, later: nat)
    ensures Repair(Repair(ms, now), later) == Repair(ms, now) <==> !Strands(OUTSIDE, ms)
  {
    var once := Repair(ms, now);
    SettledExactly(ms, now);
    if Settled(once) {
      SettledIsKept(once, later);
    } else {
      EveryCallIsAnswered(ms, now);
      AnsweredHasNoFailed(once);
      NoFailureNoStranding(OUTSIDE, once);
      SettledExactly(once, later);
    }
  }

  /** So it is idempotent on histories without failed assistant messages. */
  lemma RepairTwice(ms: seq<Message>, now: nat, later: nat)
    requires forall i :: 0 <= i < |ms| ==> ms[i].Assistant? ==> !Failed(ms[i].assistant)
    ensures Repair(Repair(ms, now), later) == Repair(ms, now)
  {
    NoFailureNoStranding(OUTSIDE, ms);
    RepairTwiceExactly(ms, now, later);
  }

  /** A history on which it is not: the system message was held for the first
      results and now stands in front of a result that came late. */
  lemma FailedMessageStrandsResult(
    a: AssistantMessage, s: SystemMessage, failed: AssistantMessage, r: ToolResult, now: nat, later: nat)
    requires !Failed(a) && CallsOf(a.content) != [] && Failed(failed)
    ensures var once := Repair([Assistant(a), System(s), Assistant(failed), Result(r)], now);
      Repair(once, later) != once
  {
    var ms := [Assistant(a), System(s), Assistant(failed), Result(r)];
    RepairTwiceExactly(ms, now, later);
    assert ms[1..] == [System(s), Assistant(failed), Result(r)];
    assert ms[1..][1..] == [Assistant(failed), Result(r)];
    assert ms[1..][1..][1..] == [Result(r)];
    var s1 := Segment(true, false, false);
    assert Strands(Segment(true, true, true), [Result(r)]);
    assert Strands(Segment(true, true, false), ms[1..][1..]);
    assert Strands(s1, ms[1..]);
    assert Advance(OUTSIDE, ms[0]) == s1;
  }
}
