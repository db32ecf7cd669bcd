/** The agent and the loop together: after a run the agent's transcript is the
    context of the loop. */
module AgentAgreement {
  import opened Options
  import opened DeclareTools
  import opened AgentEvents
  import opened AgentLoop
  import AgentRun
  import Agent

  /** A run that was watched to its end reports what its events finished, and its
      listeners see a run that is over. */
  lemma EndedRunReports(es: seq<Event>, ts: seq<Turn>, cut: Cut, messages: seq<AgentMessage>)
    requires GoodRun(es, ts, messages) || CutRun(es, ts, cut, messages)
    ensures Ended(es) == messages
    ensures Agent.FrameOf(Agent.FRESH, es).Frame? && Agent.FrameOf(Agent.FRESH, es).over
  {
    hide GoodRun, CutRun;
    Agent.RunsAreFramed(es, ts, cut, messages);
    if GoodRun(es, ts, messages) {
      GoodRunEnded(es, ts, messages);
    } else {
      CutRunEnded(es, ts, cut, messages);
    }
  }

  /** The agent runs the loop on its own messages with some prompts. On success and
      on failure alike its messages grow by exactly the new messages of the run,
      and so are the final context of the run; no failure message is added, as the
      end of the run was seen. */
  method Prompt(agent: Agent.Agent, run: AgentRun.Run, prompts: seq<AgentMessage>, fuel: nat, failure: AgentMessage)
    returns (outcome: AgentRun.Outcome)
    requires agent.Inv() && agent.activeRun.None?
    requires run.events == [] && run.turns == [] && run.newMessages == []
    requires run.context == run.initial == agent.messages
    requires forall k :: Starts(run.hooks.stream(k).events) <= 1
    modifies agent, run
    ensures agent.Inv() && agent.activeRun.None?
    ensures outcome.Unwatched? ==> agent.messages == old(agent.messages)
    ensures !outcome.Unwatched? ==>
      && agent.messages == old(agent.messages) + run.newMessages
      && agent.messages == run.context
      && Ended(run.events) == run.newMessages
  {
    ghost var cut;
    outcome, cut := run.TryRun(prompts, fuel);
    if !outcome.Unwatched? {
      EndedRunReports(run.events, run.turns, cut, run.newMessages);
      hide *;
      var id;
      ghost var seen;
      id, seen := agent.FollowRun(run.events, outcome.Failed?, failure);
      assert seen == run.events;
    }
  }

  /** The same for a run that continues from the transcript; a refused one leaves
      the agent as it was, but for the messages that tell of the failure. */
  method Continue(agent: Agent.Agent, run: AgentRun.Run, fuel: nat, failure: AgentMessage)
    returns (outcome: Option<AgentRun.Outcome>)
    requires agent.Inv() && agent.activeRun.None?
    requires run.events == [] && run.turns == [] && run.newMessages == []
    requires run.context == run.initial == agent.messages
    requires forall k :: Starts(run.hooks.stream(k).events) <= 1
    modifies agent, run
    ensures agent.Inv() && agent.activeRun.None?
    ensures outcome.None? ==> agent.messages == old(agent.messages) + [failure] && run.newMessages == []
    ensures outcome.Some? && !outcome.value.Unwatched? ==>
      && agent.messages == old(agent.messages) + run.newMessages
      && agent.messages == run.context
      && Ended(run.events) == run.newMessages
  {
    ghost var cut;
    outcome, cut := run.RunContinue(fuel);
    var id;
    ghost var seen;
    if outcome.None? {
      Agent.ClosingCompletes([], failure);
      NothingYet();
      id, seen := agent.FollowRun([], true, failure);
      assert seen == [] + Agent.Closing(Agent.FrameOf(Agent.FRESH, []), failure);
    } else if !outcome.value.Unwatched? {
      EndedRunReports(run.events, run.turns, cut, run.newMessages);
      hide *;
      id, seen := agent.FollowRun(run.events, outcome == Some(AgentRun.Failed), failure);
      assert seen == run.events;
    }
  }

  lemma NothingYet()
    ensures Agent.FrameOf(Agent.FRESH, []) == Agent.FRESH && Ended([]) == []
  {
  }
}
