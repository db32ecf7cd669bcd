/** Keeping a provider's prompt cache warm: one run per conversation state, one
    timer chain per run, and deadlines that no warming request may miss. */
module CacheWarmer {
  import opened Options
  import opened Words

  const MAX_WARMING_AGE_MS := 3_600_000
  const MAX_IDLE_WARMING_AGE_MS := 1_800_000

  function WarmingDelay(ttl: nat): Option<nat> {
    if ttl <= 10_000 then None
    else
      var ninety := ttl * 9 / 10;
      var margin := ttl - 10_000;
      var least := if ninety < margin then ninety else margin;
      Some(if least > 1 then least else 1)
  }

  /** The delay leaves a tenth of the lifetime and ten seconds, and is never zero. */
  lemma DelayLeavesRoom(ttl: nat)
    ensures WarmingDelay(ttl).Some? <==> ttl > 10_000
    ensures WarmingDelay(ttl).Some? ==>
      var d := WarmingDelay(ttl).value; 0 < d <= ttl - 10_000 && d * 10 <= ttl * 9
    ensures forall d: nat ::
      WarmingDelay(ttl).Some? && d <= ttl - 10_000 && d * 10 <= ttl * 9 ==> d <= WarmingDelay(ttl).value
  {
  }

  datatype Mode = OffMode | StreamingMode | IdleMode

  datatype Request = Request(
    sessionId: string, generation: nat, seqNo: nat,
    ttl: Option<nat>, replayable: bool, cachingDisabled: bool)

  datatype WarmRun = WarmRun(
    id: nat, ttl: nat, delay: nat, startedAt: nat, refreshDeadlineAt: nat, nextWarmAt: nat,
    idle: bool, overridden: bool, refreshing: bool)

  /** What the lock protects. The token of a run is cancelled in the section that
      takes the run out, so a token is live exactly while its run is the active one. */
  datatype Warmer = Warmer(
    active: Option<WarmRun>, reason: string, nextRunId: nat, latest: Option<(string, nat, nat)>)

  const INITIAL := Warmer(None, "waiting for first request", 1, None)

  predicate IsActive(w: Warmer, id: nat) { w.active.Some? && w.active.value.id == id }

  function Window(idle: bool): nat { if idle then MAX_IDLE_WARMING_AGE_MS else MAX_WARMING_AGE_MS }

  function AgeReason(idle: bool): string {
    if idle then "30-minute idle safety limit reached" else "one-hour safety limit reached"
  }

  function StopReason(r: Request, mode: Mode): Option<string> {
    if mode.OffMode? then Some("cache warming disabled")
    else if !r.replayable then Some("request cannot be replayed safely")
    else if r.cachingDisabled then Some("request disabled prompt caching")
    else if r.ttl.None? || WarmingDelay(r.ttl.value).None? then Some("cache lifetime unavailable")
    else None
  }

  // ---------------------------------------------------------------------------
  // The locked sections
  // ---------------------------------------------------------------------------

  predicate NotNewer(w: Warmer, r: Request) {
    w.latest.Some? && w.latest.value.0 == r.sessionId &&
    (w.latest.value.1 > r.generation || (w.latest.value.1 == r.generation && w.latest.value.2 >= r.seqNo))
  }

  function StartSection(w: Warmer, r: Request, mode: Mode, now: nat): (Warmer, Option<nat>) {
    if NotNewer(w, r) then (w, None)
    else
      var w1 := w.(latest := Some((r.sessionId, r.generation, r.seqNo)));
      match StopReason(r, mode)
      case Some(reason) => (w1.(active := None, reason := reason), None)
      case None =>
        var run := WarmRun(w.nextRunId, r.ttl.value, WarmingDelay(r.ttl.value).value, now, 0, 0, false, false, false);
        (w1.(active := Some(run), nextRunId := w.nextRunId + 1), Some(w.nextRunId))
  }

  datatype Scheduled = Armed(nextWarmAt: nat, deadline: nat) | TooOld(reason: string) | NotMine

  function ScheduleSection(w: Warmer, id: nat, now: nat): (Warmer, Scheduled) {
    if !IsActive(w, id) then (w, NotMine)
    else
      var run := w.active.value;
      var next := SaturatingAdd(now, run.delay);
      var room := if run.ttl > run.delay then run.ttl - run.delay else 0;
      var deadline := SaturatingAdd(next, room / 2);
      var run1 := run.(overridden := false, refreshing := false, nextWarmAt := next, refreshDeadlineAt := deadline);
      var oldest := SaturatingAdd(run.startedAt, Window(run.idle));
      (w.(active := Some(run1)),
       if next > oldest || now >= oldest then TooOld(AgeReason(run.idle)) else Armed(next, deadline))
  }

  function StopSection(w: Warmer, id: nat, reason: string): Warmer {
    if IsActive(w, id) then w.(active := None, reason := reason) else w
  }

  function RefreshSection(w: Warmer, id: nat): Warmer {
    if IsActive(w, id) then w.(active := Some(w.active.value.(refreshing := true))) else w
  }

  function OverrideSection(w: Warmer, id: nat, overridden: bool): Warmer {
    if IsActive(w, id) then w.(active := Some(w.active.value.(overridden := overridden))) else w
  }

  /** The run to be stopped when the agent settles, and why. */
  function SettleSection(w: Warmer, mode: Mode, now: nat): (Warmer, Option<(nat, string)>) {
    match w.active
    case None => (w, None)
    case Some(run) =>
      if mode.StreamingMode? then (w, Some((run.id, "agent run settled")))
      else
        var deadline := SaturatingAdd(run.startedAt, MAX_IDLE_WARMING_AGE_MS);
        (w.(active := Some(run.(idle := true))),
         if run.nextWarmAt > deadline || now >= deadline then Some((run.id, AgeReason(true))) else None)
  }

  function ModeReason(idle: bool, mode: Mode): Option<string> {
    if mode.OffMode? then Some("cache warming disabled")
    else if mode.StreamingMode? && idle then Some("agent run settled")
    else None
  }

  class CacheWarmer {
    var activeRun: Option<WarmRun>
    var inactiveReason: string
    var nextRunId: nat
    var latestRequest: Option<(string, nat, nat)>

    function State(): Warmer
      reads this
    {
      Warmer(activeRun, inactiveReason, nextRunId, latestRequest)
    }

    constructor ()
      ensures State() == INITIAL
    {
      activeRun, inactiveReason, nextRunId, latestRequest := None, "waiting for first request", 1, None;
    }

    /** A request starts a run of its own and ends the one before, unless it is not
        newer than what the warmer saw; the run is to be scheduled next. */
    method Start(request: Request, mode: Mode, now: nat) returns (runId: Option<nat>)
      modifies this
      ensures (State(), runId) == StartSection(old(State()), request, mode, now)
    {
      var stopReason := StopReason(request, mode);
      if NotNewer(State(), request) {
        return None;
      }
      latestRequest := Some((request.sessionId, request.generation, request.seqNo));
      activeRun := None;
      if stopReason.Some? {
        inactiveReason := stopReason.value;
        return None;
      }
      var delay := WarmingDelay(request.ttl.value).value;
      runId := Some(nextRunId);
      activeRun := Some(WarmRun(nextRunId, request.ttl.value, delay, now, 0, 0, false, false, false));
      nextRunId := nextRunId + 1;
    }

    method Schedule(runId: nat, now: nat) returns (scheduled: Scheduled)
      modifies this
      ensures (State(), scheduled) == ScheduleSection(old(State()), runId, now)
    {
      if activeRun.None? || activeRun.value.id != runId {
        return NotMine;
      }
      var run := activeRun.value;
      var nextWarmAt := SaturatingAdd(now, run.delay);
      var room := if run.ttl > run.delay then run.ttl - run.delay else 0;
      var deadlineAt := SaturatingAdd(nextWarmAt, room / 2);
      activeRun := Some(run.(
        overridden := false, refreshing := false, nextWarmAt := nextWarmAt, refreshDeadlineAt := deadlineAt));
      var oldest := SaturatingAdd(run.startedAt, Window(run.idle));
      if nextWarmAt > oldest || now >= oldest {
        return TooOld(AgeReason(run.idle));
      }
      scheduled := Armed(nextWarmAt, deadlineAt);
    }

    method StopRun(runId: nat, reason: string)
      modifies this`activeRun, this`inactiveReason
      ensures State() == StopSection(old(State()), runId, reason)
    {
      if activeRun.None? || activeRun.value.id != runId {
        return;
      }
      activeRun, inactiveReason := None, reason;
    }

    method Cancel()
      modifies this`activeRun, this`inactiveReason
      ensures State() == old(State()).(active := None, reason := "inactive")
    {
      activeRun, inactiveReason := None, "inactive";
    }

    method BeginRefresh(runId: nat) returns (snapshot: Option<WarmRun>)
      modifies this`activeRun
      ensures State() == RefreshSection(old(State()), runId)
      ensures snapshot == if IsActive(old(State()), runId) then State().active else None
    {
      if activeRun.None? || activeRun.value.id != runId {
        return None;
      }
      activeRun := Some(activeRun.value.(refreshing := true));
      snapshot := activeRun;
    }

    method SetOverride(runId: nat, overridden: bool) returns (mine: bool)
      modifies this`activeRun
      ensures State() == OverrideSection(old(State()), runId, overridden)
      ensures mine == IsActive(old(State()), runId)
    {
      mine := activeRun.Some? && activeRun.value.id == runId;
      if mine {
        activeRun := Some(activeRun.value.(overridden := overridden));
      }
    }

    /** The mode changed: the active run is stopped if the new mode does not allow it. */
    method OnModeChanged(mode: Mode)
      modifies this`activeRun, this`inactiveReason
      ensures var w := old(State());
        State() == if w.active.None? || ModeReason(w.active.value.idle, mode).None? then w
          else StopSection(w, w.active.value.id, ModeReason(w.active.value.idle, mode).value)
    {
      var active := activeRun;
      if active.Some? {
        var reason := ModeReason(active.value.idle, mode);
        if reason.Some? {
          StopRun(active.value.id, reason.value);
        }
      }
    }

    method OnAgentSettled(mode: Mode, now: nat)
      modifies this`activeRun, this`inactiveReason
      ensures var (w, stop) := SettleSection(old(State()), mode, now);
        State() == if stop.Some? then StopSection(w, stop.value.0, stop.value.1) else w
    {
      if activeRun.None? {
        return;
      }
      var run := activeRun.value;
      if mode.StreamingMode? {
        StopRun(run.id, "agent run settled");
        return;
      }
      activeRun := Some(run.(idle := true));
      var deadline := SaturatingAdd(run.startedAt, MAX_IDLE_WARMING_AGE_MS);
      if run.nextWarmAt > deadline || now >= deadline {
        StopRun(run.id, AgeReason(true));
      }
    }
  }

  // ---------------------------------------------------------------------------
  // All interleavings of the timer chains with the outside
  // ---------------------------------------------------------------------------

  /** When the run was last scheduled, when it is due and when it is too late; and
      what was decided about this warming. */
  datatype Attempt = Attempt(
    scheduledAt: nat, nextWarmAt: nat, deadline: nat, warm: bool, overridden: bool, priced: bool)

  /** Where a timer chain stands, between two locked sections. */
  datatype Pc =
    | Scheduling
    | Timed(now: nat)
    | Sleeping(a: Attempt, until: nat)
    | Waking(a: Attempt)
    | Validating(stage: nat, a: Attempt)
    | Judging(stage: nat, idle: bool, a: Attempt)
    | CheckingDeadline(stage: nat, idle: bool, agedAt: nat, a: Attempt)
    | Deciding(a: Attempt)
    | Approving(idle: bool, agedAt: nat, checkedAt: nat, a: Attempt)
    | Streaming(a: Attempt)
    | Committing
    | Rescheduling
    | Stopping(reason: string)
    | Gone

  datatype Chain = Chain(id: nat, ttl: nat, delay: nat, startedAt: nat, warms: nat, pc: Pc)

  /** A warming request that went out. */
  datatype Warm = Warm(
    id: nat, startedAt: nat, ttl: nat, scheduledAt: nat, idle: bool, agedAt: nat, checkedAt: nat)

  datatype System = System(
    w: Warmer, clock: nat, chains: seq<Chain>, stops: set<(nat, string)>, log: seq<Warm>)

  /** What the outside answers to the chain that goes on. */
  datatype Oracle = Oracle(
    mode: Mode, current: bool, warm: bool, overridden: bool, priced: bool, failed: bool, commit: Commit)

  datatype Commit = Recorded | ContextChanged | StorageError

  datatype Step =
    | Advance(ms: nat)
    | StartRun(request: Request, mode: Mode, now: nat)
    | Settle(mode: Mode, now: nat)
    | ChangeMode(mode: Mode)
    | Stop(stop: (nat, string))
    | CancelAll
    | Go(k: nat, oracle: Oracle)

  predicate Enabled(s: System, step: Step) {
    match step
    case Advance(ms) => s.clock + ms <= U64_MAX
    case StartRun(_, _, now) => now <= s.clock
    case Settle(_, now) => now <= s.clock
    case Stop(stop) => stop in s.stops
    case Go(k, _) =>
      && k < |s.chains|
      && (s.chains[k].pc.Sleeping? ==> s.clock >= s.chains[k].pc.until || !IsActive(s.w, s.chains[k].id))
    case _ => true
  }

  /** Why the decision was against warming. */
  function DecisionReason(a: Attempt): string {
    if a.overridden then "stopped by extension"
    else if a.priced then "expected savings below threshold"
    else "cache economics unavailable"
  }

  datatype Move = Move(w: Warmer, pc: Pc, sent: Option<Warm>)

  /** One section or one check of a chain. */
  function ChainMove(w: Warmer, clock: nat, c: Chain, o: Oracle): Move {
    match c.pc
    case Scheduling => Move(w, Timed(clock), None)
    case Timed(now) =>
      var (w1, r) := ScheduleSection(w, c.id, now);
      Move(w1,
           match r
           case Armed(next, deadline) => Sleeping(Attempt(now, next, deadline, false, false, false), clock + c.delay)
           case TooOld(reason) => Stopping(reason)
           case NotMine => Gone,
           None)
    case Sleeping(a, until) => Move(w, if clock >= until then Waking(a) else Gone, None)
    case Waking(a) => Move(RefreshSection(w, c.id), if IsActive(w, c.id) then Validating(0, a) else Gone, None)
    case Validating(stage, a) =>
      Move(w, if IsActive(w, c.id) then Judging(stage, w.active.value.idle, a) else Gone, None)
    case Judging(stage, idle, a) =>
      Move(w,
           if ModeReason(idle, o.mode).Some? then Stopping(ModeReason(idle, o.mode).value)
           else if clock > SaturatingAdd(c.startedAt, Window(idle)) then Stopping(AgeReason(idle))
           else if !o.current then Stopping("conversation context changed")
           else if !IsActive(w, c.id) then Gone
           else if stage == 2 then Committing
           else CheckingDeadline(stage, idle, clock, a),
           None)
    case CheckingDeadline(stage, idle, agedAt, a) =>
      Move(w,
           if clock > a.deadline then Stopping("cache refresh deadline missed")
           else if stage == 0 then Deciding(a)
           else if !a.warm then Stopping(DecisionReason(a))
           else Approving(idle, agedAt, clock, a),
           None)
    case Deciding(a) =>
      Move(
        w,
        if IsActive(w, c.id)
        then Validating(1, a.(warm := o.warm, overridden := o.overridden, priced := o.priced)) else Gone,
        None)
    case Approving(idle, agedAt, checkedAt, a) =>
      if !IsActive(w, c.id) then Move(w, Gone, None)
      else
        Move(OverrideSection(w, c.id, a.overridden), Streaming(a),
             Some(Warm(c.id, c.startedAt, c.ttl, a.scheduledAt, idle, agedAt, checkedAt)))
    case Streaming(a) => Move(w, if IsActive(w, c.id) then Validating(2, a) else Gone, None)
    case Committing =>
      Move(w,
           if o.failed then Rescheduling
           else match o.commit
             case Recorded => Rescheduling
             case ContextChanged => Stopping("context changed before usage commit")
             case StorageError => Stopping("storage error during cache warming"),
           None)
    case Rescheduling => Move(w, if IsActive(w, c.id) then Scheduling else Gone, None)
    case Stopping(reason) => Move(StopSection(w, c.id, reason), Gone, None)
    case Gone => Move(w, Gone, None)
  }

  function After(c: Chain, m: Move): Chain { c.(pc := m.pc, warms := c.warms + if m.sent.Some? then 1 else 0) }

  function ChainStep(s: System, k: nat, o: Oracle): System
    requires k < |s.chains|
  {
    var m := ChainMove(s.w, s.clock, s.chains[k], o);
    s.(w := m.w,
       chains := s.chains[k := After(s.chains[k], m)],
       log := if m.sent.Some? then s.log + [m.sent.value] else s.log)
  }

  function Next(s: System, step: Step): System
    requires Enabled(s, step)
  {
    match step
    case Advance(ms) => s.(clock := s.clock + ms)
    case StartRun(request, mode, now) =>
      var (w, id) := StartSection(s.w, request, mode, now);
      if id.None? then s.(w := w)
      else
        var chain := Chain(id.value, request.ttl.value, w.active.value.delay, now, 0, Scheduling);
        s.(w := w, chains := s.chains + [chain])
    case Settle(mode, now) =>
      var (w, stop) := SettleSection(s.w, mode, now);
      s.(w := w, stops := s.stops + if stop.Some? then {stop.value} else {})
    case ChangeMode(mode) =>
      if s.w.active.None? || ModeReason(s.w.active.value.idle, mode).None? then s
      else s.(stops := s.stops + {(s.w.active.value.id, ModeReason(s.w.active.value.idle, mode).value)})
    case Stop(stop) => s.(w := StopSection(s.w, stop.0, stop.1), stops := s.stops - {stop})
    case CancelAll => s.(w := s.w.(active := None, reason := "inactive"))
    case Go(k, o) => ChainStep(s, k, o)
  }

  // ---------------------------------------------------------------------------
  // Invariants
  // ---------------------------------------------------------------------------

  /** The warm that is under way still fits into the hour. */
  predicate Fits(c: Chain, clock: nat) {
    (c.warms + 1) * c.delay <= MAX_WARMING_AGE_MS && c.startedAt + (c.warms + 1) * c.delay <= clock
  }

  predicate Planned(c: Chain, a: Attempt, clock: nat) {
    && c.startedAt + c.warms * c.delay <= a.scheduledAt <= clock
    && a.deadline < a.scheduledAt + c.ttl
  }

  /** What is true of a chain at each point, whatever the rest of the system does. */
  predicate ChainInv(c: Chain, clock: nat) {
    && 0 < c.delay && c.delay < c.ttl
    && c.startedAt + c.warms * c.delay <= clock
    && c.warms * c.delay <= MAX_WARMING_AGE_MS
    && match c.pc
       case Timed(now) => c.startedAt + c.warms * c.delay <= now <= clock
       case Sleeping(a, until) =>
         && Planned(c, a, clock) && a.scheduledAt + c.delay <= until
         && SaturatingAdd(a.scheduledAt, c.delay) <= c.startedAt + MAX_WARMING_AGE_MS
       case Waking(a) => Planned(c, a, clock) && Fits(c, clock)
       case Validating(stage, a) => stage < 3 && (stage < 2 ==> Planned(c, a, clock) && Fits(c, clock))
       case Judging(stage, _, a) => stage < 3 && (stage < 2 ==> Planned(c, a, clock) && Fits(c, clock))
       case CheckingDeadline(stage, idle, agedAt, a) =>
         stage < 2 && Planned(c, a, clock) && Fits(c, clock) && agedAt <= c.startedAt + Window(idle)
       case Deciding(a) => Planned(c, a, clock) && Fits(c, clock)
       case Approving(idle, agedAt, checkedAt, a) =>
         && Planned(c, a, clock) && Fits(c, clock)
         && agedAt <= c.startedAt + Window(idle) && checkedAt <= a.deadline
       case _ => true
  }

  /** At its last checks the warm was young enough and in time. */
  predicate Timely(m: Warm) { m.agedAt <= m.startedAt + Window(m.idle) && m.checkedAt < m.scheduledAt + m.ttl }

  function Count(log: seq<Warm>, id: nat): nat {
    if log == [] then 0 else Count(log[..|log| - 1], id) + if log[|log| - 1].id == id then 1 else 0
  }

  predicate Belongs(run: WarmRun, c: Chain) {
    run.id == c.id && run.ttl == c.ttl && run.delay == c.delay && run.startedAt == c.startedAt
  }

  ghost predicate Inv(s: System) {
    && s.clock <= U64_MAX
    && (forall k :: 0 <= k < |s.chains| ==> ChainInv(s.chains[k], s.clock) && s.chains[k].id < s.w.nextRunId)
    && (forall j, k :: 0 <= j < k < |s.chains| ==> s.chains[j].id != s.chains[k].id)
    && (forall k :: 0 <= k < |s.chains| ==> Count(s.log, s.chains[k].id) == s.chains[k].warms)
    && (forall i :: 0 <= i < |s.log| ==> Timely(s.log[i]) && s.log[i].id < s.w.nextRunId)
    && (s.w.active.Some? ==>
          exists k :: 0 <= k < |s.chains| && Belongs(s.w.active.value, s.chains[k]) && !s.chains[k].pc.Gone?)
  }

  lemma Later(c: Chain, clock: nat, later: nat)
    requires ChainInv(c, clock) && clock <= later
    ensures ChainInv(c, later)
  {
  }

  lemma {:induction false} CountNone(log: seq<Warm>, id: nat)
    requires forall i :: 0 <= i < |log| ==> log[i].id != id
    ensures Count(log, id) == 0
  {
    if log != [] {
      CountNone(log[..|log| - 1], id);
    }
  }

  lemma CountPush(log: seq<Warm>, m: Warm, id: nat)
    ensures Count(log + [m], id) == Count(log, id) + if m.id == id then 1 else 0
  {
    assert (log + [m])[..|log|] == log;
  }

  lemma Times(n: nat, d: nat)
    ensures (n + 1) * d == n * d + d
  {
  }

  /** A chain that is armed is due before the hour is over, and too late before
      the cache entry expires. */
  lemma ArmedPlans(w: Warmer, c: Chain, now: nat, clock: nat)
    requires IsActive(w, c.id) && Belongs(w.active.value, c) && ChainInv(c, clock) && c.pc == Timed(now)
    ensures var r := ScheduleSection(w, c.id, now).1;
      r.Armed? ==>
        var attempt := Attempt(now, r.nextWarmAt, r.deadline, false, false, false);
        ChainInv(c.(pc := Sleeping(attempt, clock + c.delay)), clock)
  {
  }

  lemma WakeFits(c: Chain, clock: nat)
    requires ChainInv(c, clock) && c.pc.Sleeping? && clock >= c.pc.until && clock <= U64_MAX
    ensures ChainInv(c.(pc := Waking(c.pc.a)), clock)
  {
    Times(c.warms, c.delay);
  }

  /** The chain's own facts after its step. */
  lemma MoveKeepsChain(w: Warmer, clock: nat, c: Chain, o: Oracle)
    requires ChainInv(c, clock) && clock <= U64_MAX
    requires IsActive(w, c.id) ==> Belongs(w.active.value, c)
    ensures var m := ChainMove(w, clock, c, o);
      ChainInv(After(c, m), clock) && (m.sent.Some? ==> Timely(m.sent.value) && m.sent.value.id == c.id)
  {
    if c.pc.Scheduling? || c.pc.Timed? || c.pc.Sleeping? || c.pc.Waking? {
      TimerKeepsChain(w, clock, c, o);
    } else {
      RefreshKeepsChain(w, clock, c, o);
    }
  }

  lemma TimerKeepsChain(w: Warmer, clock: nat, c: Chain, o: Oracle)
    requires ChainInv(c, clock) && clock <= U64_MAX
    requires IsActive(w, c.id) ==> Belongs(w.active.value, c)
    requires c.pc.Scheduling? || c.pc.Timed? || c.pc.Sleeping? || c.pc.Waking?
    ensures var m := ChainMove(w, clock, c, o); ChainInv(After(c, m), clock) && m.sent.None?
  {
    hide ScheduleSection, RefreshSection, SaturatingAdd;
    match c.pc
    case Timed(now) =>
      ScheduledIs(w, c.id, now);
      if IsActive(w, c.id) {
        ArmedPlans(w, c, now, clock);
      }
    case Sleeping(a, until) =>
      if clock >= until {
        WakeFits(c, clock);
      }
    case _ =>
  }

  lemma RefreshKeepsChain(w: Warmer, clock: nat, c: Chain, o: Oracle)
    requires ChainInv(c, clock)
    requires !(c.pc.Scheduling? || c.pc.Timed? || c.pc.Sleeping? || c.pc.Waking?)
    ensures var m := ChainMove(w, clock, c, o);
      ChainInv(After(c, m), clock) && (m.sent.Some? ==> Timely(m.sent.value) && m.sent.value.id == c.id)
  {
    hide StopSection, OverrideSection, ModeReason;
    if c.pc.Approving? {
      Times(c.warms, c.delay);
    }
  }

  lemma ScheduledIs(w: Warmer, id: nat, now: nat)
    ensures ScheduleSection(w, id, now).1.NotMine? <==> !IsActive(w, id)
    ensures !IsActive(w, id) ==> ScheduleSection(w, id, now).0 == w
    ensures IsActive(w, id) ==> IsActive(ScheduleSection(w, id, now).0, id)
  {
  }

  predicate SameRun(a: WarmRun, b: WarmRun) {
    a.id == b.id && a.ttl == b.ttl && a.delay == b.delay && a.startedAt == b.startedAt
  }

  /** A chain step changes the warmer only through its own run, and leaves a run
      that stays active with a chain that goes on. */
  lemma MoveKeepsWarmer(w: Warmer, clock: nat, c: Chain, o: Oracle)
    requires c.pc.Sleeping? ==> clock >= c.pc.until || !IsActive(w, c.id)
    ensures var m := ChainMove(w, clock, c, o);
      && m.w.nextRunId == w.nextRunId && m.w.latest == w.latest
      && (m.w.active.Some? ==> w.active.Some? && SameRun(w.active.value, m.w.active.value))
      && (!IsActive(w, c.id) ==> m.w == w)
      && (IsActive(m.w, c.id) && m.pc.Gone? ==> c.pc.Gone?)
      && (m.sent.Some? ==> IsActive(w, c.id))
  {
  }

  /** A stale chain neither alters nor stops the run that came after its own, nor
      sends a request. */
  lemma StaleChainIsHarmless(s: System, k: nat, o: Oracle)
    requires Enabled(s, Go(k, o)) && !IsActive(s.w, s.chains[k].id)
    ensures Next(s, Go(k, o)).w == s.w && Next(s, Go(k, o)).log == s.log
  {
    MoveKeepsWarmer(s.w, s.clock, s.chains[k], o);
  }

  lemma ChainStepKeepsInv(s: System, k: nat, o: Oracle)
    requires Inv(s) && Enabled(s, Go(k, o))
    ensures Inv(ChainStep(s, k, o))
  {
    hide ChainMove, ChainInv, Timely, Count;
    var c, s' := s.chains[k], ChainStep(s, k, o);
    var m := ChainMove(s.w, s.clock, c, o);
    if IsActive(s.w, c.id) {
      var j :| 0 <= j < |s.chains| && Belongs(s.w.active.value, s.chains[j]) && !s.chains[j].pc.Gone?;
      assert j == k;
    }
    MoveKeepsChain(s.w, s.clock, c, o);
    MoveKeepsWarmer(s.w, s.clock, c, o);
    forall j | 0 <= j < |s.chains|
      ensures Count(s'.log, s.chains[j].id) == s'.chains[j].warms
    {
      if m.sent.Some? {
        CountPush(s.log, m.sent.value, s.chains[j].id);
      }
    }
    if s'.w.active.Some? {
      var j :| 0 <= j < |s.chains| && Belongs(s.w.active.value, s.chains[j]) && !s.chains[j].pc.Gone?;
      assert Belongs(s'.w.active.value, s'.chains[j]);
    }
  }

  lemma StartKeepsInv(s: System, request: Request, mode: Mode, now: nat)
    requires Inv(s) && now <= s.clock
    ensures Inv(Next(s, StartRun(request, mode, now)))
  {
    hide Timely, Count;
    var step := StartRun(request, mode, now);
    var (w, id) := StartSection(s.w, request, mode, now);
    var s' := Next(s, step);
    if id.Some? {
      DelayLeavesRoom(request.ttl.value);
      var c := s'.chains[|s.chains|];
      CountNone(s.log, id.value);
      assert Belongs(w.active.value, c);
      forall j, k | 0 <= j < k < |s'.chains|
        ensures s'.chains[j].id != s'.chains[k].id
      {
      }
    }
  }

  lemma SameRunKeepsInv(s: System, s': System)
    requires Inv(s) && s'.clock == s.clock && s'.chains == s.chains && s'.log == s.log
    requires s'.w.nextRunId == s.w.nextRunId
    requires s'.w.active.Some? ==> s.w.active.Some? && SameRun(s.w.active.value, s'.w.active.value)
    ensures Inv(s')
  {
    hide ChainInv, Timely, Count;
    if s'.w.active.Some? {
      var k :| 0 <= k < |s.chains| && Belongs(s.w.active.value, s.chains[k]) && !s.chains[k].pc.Gone?;
      assert Belongs(s'.w.active.value, s'.chains[k]);
    }
  }

  /** Every step keeps the invariant. */
  lemma NextKeepsInv(s: System, step: Step)
    requires Inv(s) && Enabled(s, step)
    ensures Inv(Next(s, step))
  {
    hide ChainMove, ChainInv, Timely, Count, StartSection;
    match step
    case Advance(ms) =>
      forall k | 0 <= k < |s.chains|
        ensures ChainInv(s.chains[k], s.clock + ms)
      {
        Later(s.chains[k], s.clock, s.clock + ms);
      }
    case StartRun(request, mode, now) => StartKeepsInv(s, request, mode, now);
    case Go(k, o) => ChainStepKeepsInv(s, k, o);
    case Settle(_, _) => SameRunKeepsInv(s, Next(s, step));
    case ChangeMode(_) => SameRunKeepsInv(s, Next(s, step));
    case Stop(_) => SameRunKeepsInv(s, Next(s, step));
    case CancelAll => SameRunKeepsInv(s, Next(s, step));
  }

  /** A run of the whole system, as the steps it takes. */
  predicate Runs(s: System, steps: seq<Step>)
    decreases |steps|
  {
    steps == [] || (Enabled(s, steps[0]) && Runs(Next(s, steps[0]), steps[1..]))
  }

  function Final(s: System, steps: seq<Step>): System
    requires Runs(s, steps)
    decreases |steps|
  {
    if steps == [] then s else Final(Next(s, steps[0]), steps[1..])
  }

  lemma {:induction false} RunKeepsInv(s: System, steps: seq<Step>)
    requires Inv(s) && Runs(s, steps)
    ensures Inv(Final(s, steps))
    decreases |steps|
  {
    if steps != [] {
      NextKeepsInv(s, steps[0]);
      RunKeepsInv(Next(s, steps[0]), steps[1..]);
    }
  }

  /** In every reachable state there is at most one chain per run, the active run
      has one that is still going, every request was young enough and in time at
      its last checks, and the requests of one run take at most an hour. */
  lemma WarmingIsBounded(clock: nat, steps: seq<Step>)
    requires clock <= U64_MAX && Runs(System(INITIAL, clock, [], {}, []), steps)
    ensures var s := Final(System(INITIAL, clock, [], {}, []), steps);
      && (forall j, k :: 0 <= j < k < |s.chains| ==> s.chains[j].id != s.chains[k].id)
      && (s.w.active.Some? ==>
            exists k :: 0 <= k < |s.chains| && Belongs(s.w.active.value, s.chains[k]) && !s.chains[k].pc.Gone?)
      && (forall i :: 0 <= i < |s.log| ==> Timely(s.log[i]))
      && (forall k :: 0 <= k < |s.chains| ==> Count(s.log, s.chains[k].id) * s.chains[k].delay <= MAX_WARMING_AGE_MS)
  {
    RunKeepsInv(System(INITIAL, clock, [], {}, []), steps);
  }
}
