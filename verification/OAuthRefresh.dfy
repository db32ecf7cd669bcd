/** Rotating a stored OAuth token: callers share one credential store, and a lock
    per provider makes a refresh a single flight. */
module OAuthRefresh {
  import opened Options
  import opened Words

  const DEFAULT_MINIMUM_VALIDITY_MS := 300_000

  datatype Token = Token(access: string, refresh: string, expires: nat)

  datatype Credential = OAuth(token: Token) | ApiKey(key: Option<string>)

  /** How long a token must last for a request that asks for `wanted`. */
  function MinimumValidity(wanted: Option<nat>): nat {
    if wanted.Some? && wanted.value > DEFAULT_MINIMUM_VALIDITY_MS then wanted.value else DEFAULT_MINIMUM_VALIDITY_MS
  }

  predicate Fresh(t: Token, now: nat, validity: nat) { SaturatingAdd(now, validity) < t.expires }

  // ---------------------------------------------------------------------------
  // The store, one section at a time
  // ---------------------------------------------------------------------------

  datatype RefreshResult = Kept(credential: Option<Credential>) | Rotated(token: Token) | Aborted | RefreshFailed

  class InMemoryCredentialStore {
    var entries: map<string, Credential>

    constructor ()
      ensures entries == map[]
    {
      entries := map[];
    }

    function Read(id: string): Option<Credential>
      reads this
    {
      if id in entries then Some(entries[id]) else None
    }

    method Set(id: string, credential: Credential)
      modifies this
      ensures Read(id) == Some(credential)
      ensures forall other :: other != id ==> Read(other) == old(Read(other))
    {
      entries := entries[id := credential];
    }

    method Delete(id: string)
      modifies this
      ensures Read(id) == None
      ensures forall other :: other != id ==> Read(other) == old(Read(other))
    {
      entries := entries - {id};
    }

    /** A whole modification under the lock, with what the server answers. */
    method RefreshStored(id: string, validity: nat, now: nat, cancelled: bool, answer: Option<Token>)
      returns (result: RefreshResult)
      modifies this
      ensures forall other :: other != id ==> Read(other) == old(Read(other))
      ensures Read(id) == if result.Rotated? then Some(OAuth(result.token)) else old(Read(id))
      ensures result.Aborted? <==> cancelled
      ensures result.Kept? ==> result.credential == Read(id)
      ensures result.Rotated? || result.RefreshFailed? <==>
        && !cancelled && old(Read(id)).Some? && old(Read(id)).value.OAuth?
        && !Fresh(old(Read(id)).value.token, now, validity)
      ensures result.Rotated? ==> answer == Some(result.token)
      ensures result.RefreshFailed? ==> answer.None?
    {
      if cancelled {
        return Aborted;
      }
      var current := Read(id);
      match current
      case Some(OAuth(token)) =>
        if Fresh(token, now, validity) {
          return Kept(current);
        }
        match answer {
          case None => return RefreshFailed;
          case Some(refreshed) =>
            entries := entries[id := OAuth(refreshed)];
            return Rotated(refreshed);
        }
      case _ =>
        return Kept(current);
    }
  }

  // ---------------------------------------------------------------------------
  // All interleavings of callers for one provider
  // ---------------------------------------------------------------------------

  datatype Answer = Served(token: Token) | NoToken | Cancelled | Failure | TooShort

  /** Where the task of a caller stands. The task outlives a caller that gives up. */
  datatype Pc =
    | Reading
    | WaitingLock
    | Locked
    | Checking(token: Token)
    | Refreshing(spent: Token, since: nat)
    | Storing(spent: Token, gained: Token)
    | Unlocking(answer: Answer)
    | Finished(answer: Answer, at: nat)

  /** A caller may ask for more than the minimum validity. */
  datatype Caller = Caller(wanted: Option<nat>, cancelled: bool, pc: Pc)

  function Validity(c: Caller): nat { MinimumValidity(c.wanted) }

  /** A token that was waited for has to last as long as the caller asked, if it did. */
  function Verdict(c: Caller, a: Answer, now: nat): Answer {
    if a.Served? && c.wanted.Some? && !Fresh(a.token, now, Validity(c)) then TooShort else a
  }

  /** What happened to the stored credential, in order. */
  datatype Change =
    | Written(credential: Option<Credential>)
    | Rotation(spent: Token, gained: Token, since: nat, validity: nat)

  datatype System = System(
    clock: nat, store: Option<Credential>, lock: Option<nat>, callers: seq<Caller>, log: seq<Change>)

  datatype Step =
    | Advance(ms: nat)
    | Arrive(wanted: Option<nat>)
    | Cancel(k: nat)
    | Abandon(k: nat)
    | Write(credential: Option<Credential>)
    | Go(k: nat, answer: Option<Token>)

  predicate Holds(pc: Pc) { pc.Locked? || pc.Checking? || pc.Refreshing? || pc.Storing? || pc.Unlocking? }

  /** Cancelling counts only before the refresh has started. */
  predicate NotStarted(pc: Pc) { pc.WaitingLock? || pc.Locked? || pc.Checking? }

  predicate Enabled(s: System, step: Step) {
    match step
    case Cancel(k) => k < |s.callers|
    case Abandon(k) => k < |s.callers| && s.callers[k].cancelled && NotStarted(s.callers[k].pc)
    case Write(_) => s.lock.None?
    case Go(k, _) => k < |s.callers| && (s.callers[k].pc.WaitingLock? ==> s.lock.None?)
    case _ => true
  }

  function At(s: System, k: nat, pc: Pc): System
    requires k < |s.callers|
  {
    s.(callers := s.callers[k := s.callers[k].(pc := pc)])
  }

  function TaskStep(s: System, k: nat, answer: Option<Token>): System
    requires k < |s.callers|
  {
    var c := s.callers[k];
    match c.pc
    case Reading =>
      At(s, k,
         match s.store
         case Some(OAuth(t)) => if Fresh(t, s.clock, Validity(c)) then Finished(Served(t), s.clock) else WaitingLock
         case _ => Finished(NoToken, s.clock))
    case WaitingLock => At(s.(lock := Some(k)), k, Locked)
    case Locked =>
      At(s, k,
         if c.cancelled then Unlocking(Cancelled)
         else match s.store
           case Some(OAuth(t)) => Checking(t)
           case _ => Unlocking(NoToken))
    case Checking(t) =>
      At(s, k, if Fresh(t, s.clock, Validity(c)) then Unlocking(Served(t)) else Refreshing(t, s.clock))
    case Refreshing(spent, since) =>
      (match answer
       case None => At(s, k, Unlocking(Failure))
       case Some(gained) =>
         At(s.(log := s.log + [Rotation(spent, gained, since, Validity(c))]), k, Storing(spent, gained)))
    case Storing(spent, gained) => At(s.(store := Some(OAuth(gained))), k, Unlocking(Served(gained)))
    case Unlocking(a) => At(s.(lock := None), k, Finished(Verdict(c, a, s.clock), s.clock))
    case Finished(_, _) => s
  }

  function Next(s: System, step: Step): System
    requires Enabled(s, step)
  {
    match step
    case Advance(ms) => s.(clock := s.clock + ms)
    case Arrive(wanted) => s.(callers := s.callers + [Caller(wanted, false, Reading)])
    case Cancel(k) => s.(callers := s.callers[k := s.callers[k].(cancelled := true)])
    case Abandon(k) =>
      At(s.(lock := if Holds(s.callers[k].pc) then None else s.lock), k, Finished(Cancelled, s.clock))
    case Write(c) => s.(store := c, log := s.log + [Written(c)])
    case Go(k, answer) => TaskStep(s, k, answer)
  }

  // ---------------------------------------------------------------------------
  // Invariants
  // ---------------------------------------------------------------------------

  function Value(log: seq<Change>): Option<Credential> {
    if log == [] then None
    else match log[|log| - 1]
      case Written(c) => c
      case Rotation(_, gained, _, _) => Some(OAuth(gained))
  }

  /** Each rotation spent the credential that was in force, and that one was not
      fresh enough for the caller when the refresh began. */
  predicate Honest(log: seq<Change>) {
    forall i :: 0 <= i < |log| && log[i].Rotation? ==>
      Value(log[..i]) == Some(OAuth(log[i].spent)) && !Fresh(log[i].spent, log[i].since, log[i].validity)
  }

  /** Who asked for a validity was served a token that had it then. */
  predicate ServedAsWanted(c: Caller) {
    c.pc.Finished? && c.pc.answer.Served? && c.wanted.Some? ==> Fresh(c.pc.answer.token, c.pc.at, Validity(c))
  }

  ghost predicate CallerInv(s: System, k: nat)
    requires k < |s.callers|
  {
    var c := s.callers[k];
    && (Holds(c.pc) <==> s.lock == Some(k))
    && (c.pc.Checking? ==> s.store == Some(OAuth(c.pc.token)))
    && (c.pc.Refreshing? ==> s.store == Some(OAuth(c.pc.spent)) && !Fresh(c.pc.spent, c.pc.since, Validity(c)))
    && (c.pc.Storing? ==> Value(s.log) == Some(OAuth(c.pc.gained)))
    && ServedAsWanted(c)
  }

  predicate RotationUnstored(s: System) {
    s.lock.Some? && s.lock.value < |s.callers| && s.callers[s.lock.value].pc.Storing?
  }

  ghost predicate Inv(s: System) {
    && (forall k :: 0 <= k < |s.callers| ==> CallerInv(s, k))
    && (s.lock.Some? ==> s.lock.value < |s.callers|)
    && Honest(s.log)
    && (!RotationUnstored(s) ==> s.store == Value(s.log))
  }

  lemma HonestPush(log: seq<Change>, c: Change)
    requires Honest(log)
    requires c.Rotation? ==> Value(log) == Some(OAuth(c.spent)) && !Fresh(c.spent, c.since, c.validity)
    ensures Honest(log + [c])
  {
    forall i | 0 <= i < |log + [c]| && (log + [c])[i].Rotation?
      ensures Value((log + [c])[..i]) == Some(OAuth((log + [c])[i].spent))
        && !Fresh((log + [c])[i].spent, (log + [c])[i].since, (log + [c])[i].validity)
    {
      if i < |log| {
        assert (log + [c])[..i] == log[..i];
      } else {
        assert (log + [c])[..i] == log;
      }
    }
  }

  lemma GoKeepsInv(s: System, k: nat, answer: Option<Token>)
    requires Inv(s) && Enabled(s, Go(k, answer))
    ensures Inv(Next(s, Go(k, answer)))
  {
    hide Honest, Fresh;
    var c, s' := s.callers[k], Next(s, Go(k, answer));
    assert CallerInv(s, k);
    if c.pc.Refreshing? && answer.Some? {
      HonestPush(s.log, Rotation(c.pc.spent, answer.value, c.pc.since, Validity(c)));
    }
    forall j | 0 <= j < |s.callers|
      ensures CallerInv(s', j)
    {
      assert CallerInv(s, j);
    }
  }

  lemma NextKeepsInv(s: System, step: Step)
    requires Inv(s) && Enabled(s, step)
    ensures Inv(Next(s, step))
  {
    hide Honest, Fresh;
    var s' := Next(s, step);
    match step
    case Go(k, answer) => GoKeepsInv(s, k, answer);
    case Write(c) =>
      HonestPush(s.log, Written(c));
      forall j | 0 <= j < |s.callers|
        ensures CallerInv(s', j)
      {
        assert CallerInv(s, j);
      }
    case Abandon(k) =>
      assert CallerInv(s, k);
      forall j | 0 <= j < |s.callers|
        ensures CallerInv(s', j)
      {
        assert CallerInv(s, j);
      }
    case _ =>
      forall j | 0 <= j < |s'.callers|
        ensures CallerInv(s', j)
      {
        if j < |s.callers| {
          assert CallerInv(s, j);
        }
      }
  }

  predicate Runs(s: System, steps: seq<Step>)
    decreases |steps|
  {
    steps == [] || (Enabled(s, steps[0]) && Runs(Next(s, steps[0]), steps[1..]))
  }

  function Final(s: System, steps: seq<Step>): System
    requires Runs(s, steps)
    decreases |steps|
  {
    if steps == [] then s else Final(Next(s, steps[0]), steps[1..])
  }

  lemma {:induction false} RunKeepsInv(s: System, steps: seq<Step>)
    requires Inv(s) && Runs(s, steps)
    ensures Inv(Final(s, steps))
    decreases |steps|
  {
    if steps != [] {
      NextKeepsInv(s, steps[0]);
      RunKeepsInv(Next(s, steps[0]), steps[1..]);
    }
  }

  function Initial(clock: nat, store: Option<Credential>): System { System(clock, store, None, [], [Written(store)]) }

  /** Whatever callers come, wait and cancel: at most one refresh is in flight; it
      spends the credential that is stored; every success is stored before the lock
      is free again; the whole history is a chain of such rotations and writes; and
      who asked for a validity is served only a token that had it. */
  lemma RotationIsSingleFlight(clock: nat, store: Option<Credential>, steps: seq<Step>)
    requires Runs(Initial(clock, store), steps)
    ensures var s := Final(Initial(clock, store), steps);
      && (forall j, k :: 0 <= j < k < |s.callers| ==> !(s.callers[j].pc.Refreshing? && s.callers[k].pc.Refreshing?))
      && (forall k :: 0 <= k < |s.callers| && s.callers[k].pc.Refreshing? ==>
            s.store == Some(OAuth(s.callers[k].pc.spent)))
      && (s.lock.None? ==> s.store == Value(s.log))
      && Honest(s.log)
      && (forall k :: 0 <= k < |s.callers| ==> ServedAsWanted(s.callers[k]))
  {
    var s0 := Initial(clock, store);
    assert s0.log[..0] == [];
    RunKeepsInv(s0, steps);
    var s := Final(s0, steps);
    forall j, k | 0 <= j < k < |s.callers|
      ensures !(s.callers[j].pc.Refreshing? && s.callers[k].pc.Refreshing?)
    {
      assert CallerInv(s, j) && CallerInv(s, k);
    }
    forall k | 0 <= k < |s.callers| && s.callers[k].pc.Refreshing?
      ensures s.store == Some(OAuth(s.callers[k].pc.spent))
    {
      assert CallerInv(s, k);
    }
    forall k | 0 <= k < |s.callers|
      ensures ServedAsWanted(s.callers[k])
    {
      assert CallerInv(s, k);
    }
  }

  // ---------------------------------------------------------------------------
  // A fresh token is shared
  // ---------------------------------------------------------------------------

  predicate Idle(pc: Pc) { !pc.Refreshing? && !pc.Storing? }

  /** No refresh is under way, and the stored token lasts for everyone till `until`. */
  ghost predicate Shared(s: System, t: Token, until: nat, validity: nat) {
    && s.store == Some(OAuth(t)) && s.clock <= until && Fresh(t, until, validity)
    && forall k :: 0 <= k < |s.callers| ==> Idle(s.callers[k].pc) && Validity(s.callers[k]) <= validity
  }

  predicate Asks(step: Step, validity: nat) {
    !step.Write? && (step.Arrive? ==> MinimumValidity(step.wanted) <= validity)
  }

  lemma FreshEarlier(t: Token, now: nat, until: nat, v: nat, validity: nat)
    requires Fresh(t, until, validity) && now <= until && v <= validity
    ensures Fresh(t, now, v)
  {
  }

  lemma StepStaysShared(s: System, step: Step, t: Token, until: nat, validity: nat)
    requires Inv(s) && Enabled(s, step) && Shared(s, t, until, validity) && Asks(step, validity)
    requires Next(s, step).clock <= until
    ensures Shared(Next(s, step), t, until, validity) && Next(s, step).log == s.log
  {
    if step.Go? {
      assert CallerInv(s, step.k);
      FreshEarlier(t, s.clock, until, Validity(s.callers[step.k]), validity);
    }
  }

  lemma {:induction false} ClockGrows(s: System, steps: seq<Step>)
    requires Runs(s, steps)
    ensures s.clock <= Final(s, steps).clock
    decreases |steps|
  {
    if steps != [] {
      ClockGrows(Next(s, steps[0]), steps[1..]);
    }
  }

  /** Once a token is stored that is fresh enough for all callers until some time,
      no number of callers, waiting or new, refreshes it again before that time. */
  lemma {:induction false} FreshTokenIsNotRefreshed(
    s: System, steps: seq<Step>, t: Token, until: nat, validity: nat)
    requires Inv(s) && Runs(s, steps) && Shared(s, t, until, validity)
    requires Final(s, steps).clock <= until
    requires forall i :: 0 <= i < |steps| ==> Asks(steps[i], validity)
    ensures Final(s, steps).log == s.log && Final(s, steps).store == Some(OAuth(t))
    decreases |steps|
  {
    if steps != [] {
      var next := Next(s, steps[0]);
      ClockGrows(next, steps[1..]);
      StepStaysShared(s, steps[0], t, until, validity);
      NextKeepsInv(s, steps[0]);
      FreshTokenIsNotRefreshed(next, steps[1..], t, until, validity);
    }
  }

  // ---------------------------------------------------------------------------
  // A refresh that has started is carried through
  // ---------------------------------------------------------------------------

  /** What the server answered to caller `k`, if it did in these steps. */
  function AnswerTo(k: nat, answer: Option<Option<Token>>, steps: seq<Step>): Option<Option<Token>>
    decreases |steps|
  {
    if steps == [] then answer
    else
      AnswerTo(
        k, if answer.None? && steps[0].Go? && steps[0].k == k then Some(steps[0].answer) else answer, steps[1..])
  }

  /** Caller `k` had started to refresh when the history was `log`. Until the server
      answers it goes on, whoever gives up. A token is then added to the history,
      stored before the lock is let go, and told to the caller; a failure leaves
      the credential as it was. */
  ghost predicate CarriedThrough(
    log: seq<Change>, spent: Token, since: nat, s: System, k: nat, answer: Option<Option<Token>>)
  {
    && k < |s.callers|
    && match (answer, s.callers[k].pc)
       case (None, Refreshing(t, at)) => t == spent && at == since && s.log == log
       case (Some(None), Unlocking(a)) => a == Failure && s.log == log && s.store == Some(OAuth(spent))
       case (Some(None), Finished(a, _)) => a == Failure && log <= s.log
       case (Some(Some(gained)), Storing(t, g)) =>
         t == spent && g == gained && s.log == log + [Rotation(spent, gained, since, Validity(s.callers[k]))]
       case (Some(Some(gained)), Unlocking(a)) =>
         && a == Served(gained) && s.store == Some(OAuth(gained))
         && s.log == log + [Rotation(spent, gained, since, Validity(s.callers[k]))]
       case (Some(Some(gained)), Finished(a, _)) =>
         && (a == Served(gained) || a == TooShort)
         && log + [Rotation(spent, gained, since, Validity(s.callers[k]))] <= s.log
       case _ => false
  }

  lemma LogGrows(s: System, step: Step)
    requires Enabled(s, step)
    ensures s.log <= Next(s, step).log
  {
  }

  lemma StepCarriesThrough(
    log: seq<Change>, spent: Token, since: nat, s: System, k: nat, answer: Option<Option<Token>>, step: Step)
    requires Inv(s) && Enabled(s, step) && CarriedThrough(log, spent, since, s, k, answer)
    ensures CarriedThrough(log, spent, since, Next(s, step), k, AnswerTo(k, answer, [step]))
  {
    hide Honest, Fresh;
    assert CallerInv(s, k);
    LogGrows(s, step);
    assert [step][1..] == [];
    if step.Go? {
      assert CallerInv(s, step.k);
    }
  }

  lemma {:induction false} RunCarriesThrough(
    log: seq<Change>, spent: Token, since: nat, s: System, k: nat, answer: Option<Option<Token>>, steps: seq<Step>)
    requires Inv(s) && Runs(s, steps) && CarriedThrough(log, spent, since, s, k, answer)
    ensures CarriedThrough(log, spent, since, Final(s, steps), k, AnswerTo(k, answer, steps))
    decreases |steps|
  {
    hide Inv, CarriedThrough, Next, Enabled;
    if steps != [] {
      StepCarriesThrough(log, spent, since, s, k, answer, steps[0]);
      NextKeepsInv(s, steps[0]);
      assert [steps[0]][1..] == [];
      RunCarriesThrough(
        log, spent, since, Next(s, steps[0]), k, AnswerTo(k, answer, [steps[0]]), steps[1..]);
    }
  }

  /** Over all interleavings, a refresh that has started is carried through, even if
      its caller or anyone else gives up: it is never cancelled, and what the server
      answers is stored before the lock is free. */
  lemma StartedRefreshIsStored(s: System, k: nat, steps: seq<Step>)
    requires Inv(s) && Runs(s, steps) && k < |s.callers| && s.callers[k].pc.Refreshing?
    ensures var c := s.callers[k].pc;
      CarriedThrough(s.log, c.spent, c.since, Final(s, steps), k, AnswerTo(k, None, steps))
  {
    RunCarriesThrough(s.log, s.callers[k].pc.spent, s.callers[k].pc.since, s, k, None, steps);
  }
}
