/** The gate through which a running tool publishes progress updates: a queue
    behind a lock, a worker that sends updates as they come, and a closer that
    stops the intake and sends the rest. */
module ToolUpdateGate {
  import opened Options
  import opened Seqs

  type Update = string

  // ---------------------------------------------------------------------------
  // The locked sections
  // ---------------------------------------------------------------------------

  datatype Gate = Gate(accepting: bool, queue: seq<Update>, inFlight: nat)

  const OPEN := Gate(true, [], 0)

  function Enqueue(g: Gate, u: Update): (Gate, bool) {
    if g.accepting then (g.(queue := g.queue + [u]), true) else (g, false)
  }

  function Pop(g: Gate): (Gate, Option<Update>) {
    if g.queue == [] then (g, None) else (g.(queue := g.queue[1..], inFlight := g.inFlight + 1), Some(g.queue[0]))
  }

  function Complete(g: Gate): Gate { g.(inFlight := if g.inFlight > 0 then g.inFlight - 1 else 0) }

  function Shut(g: Gate): Gate { g.(accepting := false) }

  function ShutAndTake(g: Gate): (Gate, seq<Update>) { (g.(accepting := false, queue := []), g.queue) }

  /** The lock-protected fields; each method is one critical section. */
  class UpdateGate {
    var accepting: bool
    var queue: seq<Update>
    var inFlight: nat

    function State(): Gate
      reads this
    {
      Gate(accepting, queue, inFlight)
    }

    constructor ()
      ensures State() == OPEN
    {
      accepting, queue, inFlight := true, [], 0;
    }

    method TryEnqueue(partial: Update) returns (accepted: bool)
      modifies this
      ensures (State(), accepted) == Enqueue(old(State()), partial)
    {
      if !accepting {
        return false;
      }
      queue := queue + [partial];
      return true;
    }

    method PopForSend() returns (item: Option<Update>)
      modifies this
      ensures (State(), item) == Pop(old(State()))
    {
      if queue == [] {
        return None;
      }
      item := Some(queue[0]);
      queue := queue[1..];
      inFlight := inFlight + 1;
    }

    method CompleteSend()
      modifies this
      ensures State() == Complete(old(State()))
    {
      if inFlight > 0 {
        inFlight := inFlight - 1;
      }
    }

    method Close()
      modifies this
      ensures State() == Shut(old(State()))
    {
      accepting := false;
    }

    method CloseAndTake() returns (remaining: seq<Update>)
      modifies this
      ensures (State(), remaining) == ShutAndTake(old(State()))
    {
      accepting := false;
      remaining := queue;
      queue := [];
    }
  }

  // ---------------------------------------------------------------------------
  // The protocol
  // ---------------------------------------------------------------------------

  /** Program points of the background worker. A `woken` flag is a `Notified`
      future: it is set by every `notify_waiters` after its creation. */
  datatype Worker =
    | Popping
    | Sending(item: Update)
    | Sent
    | Notifying
    | Arming
    | Checking(woken: bool)
    | Sleeping(woken: bool)
    | Exited

  /** Program points of the task that runs the tool and then closes the gate. */
  datatype Closer =
    | Running
    | Announcing(remaining: seq<Update>)
    | ArmingWait(remaining: seq<Update>)
    | CheckingWait(remaining: seq<Update>, woken: bool)
    | Waiting(remaining: seq<Update>, woken: bool)
    | Delivering(remaining: seq<Update>)
    | Returned
    | Dropped

  /** `owed` counts threads that have left a critical section and are about to
      call `notify_waiters`; `accepted` and `delivered` are histories. */
  datatype State = State(
    gate: Gate, worker: Worker, closer: Closer, owed: nat, accepted: seq<Update>, delivered: seq<Update>)

  const START := State(OPEN, Popping, Running, 0, [], [])

  datatype Action =
    | Produce(u: Update)   // any thread calls `on_update`
    | FireOwed             // one of the owed `notify_waiters` calls
    | WorkerStep
    | CloserStep
    | Drop                 // the tool future is dropped; its guard closes the gate

  function WakeWorker(w: Worker): Worker {
    match w
    case Checking(_) => Checking(true)
    case Sleeping(_) => Sleeping(true)
    case _ => w
  }

  function WakeCloser(c: Closer): Closer {
    match c
    case CheckingWait(remaining, _) => CheckingWait(remaining, true)
    case Waiting(remaining, _) => Waiting(remaining, true)
    case _ => c
  }

  function Notify(s: State): State { s.(worker := WakeWorker(s.worker), closer := WakeCloser(s.closer)) }

  predicate WorkerEnabled(s: State) {
    !s.worker.Exited? && (s.worker.Sleeping? ==> s.worker.woken)
  }

  predicate CloserEnabled(s: State) {
    !s.closer.Returned? && !s.closer.Dropped? && (s.closer.Waiting? ==> s.closer.woken)
  }

  predicate Enabled(s: State, a: Action) {
    match a
    case Produce(_) => true
    case FireOwed => s.owed > 0
    case WorkerStep => WorkerEnabled(s)
    case CloserStep => CloserEnabled(s)
    case Drop => s.closer.Running? || s.closer.Waiting? || s.closer.Delivering?
  }

  function DoWorker(s: State): State
    requires WorkerEnabled(s)
  {
    match s.worker
    case Popping =>
      var (g, item) := Pop(s.gate);
      s.(gate := g, worker := if item.Some? then Sending(item.value) else Arming)
    case Sending(item) => s.(worker := Sent, delivered := s.delivered + [item])
    case Sent => s.(gate := Complete(s.gate), worker := Notifying)
    case Notifying => Notify(s).(worker := Popping)
    case Arming => s.(worker := Checking(false))
    case Checking(woken) =>
      if s.gate.queue != [] then s.(worker := Popping)
      else if !s.gate.accepting then s.(worker := Exited)
      else s.(worker := Sleeping(woken))
    case Sleeping(_) => s.(worker := Popping)
  }

  function DoCloser(s: State): State
    requires CloserEnabled(s)
  {
    match s.closer
    case Running =>
      var (g, remaining) := ShutAndTake(s.gate);
      s.(gate := g, closer := Announcing(remaining))
    case Announcing(remaining) => Notify(s).(closer := ArmingWait(remaining))
    case ArmingWait(remaining) => s.(closer := CheckingWait(remaining, false))
    case CheckingWait(remaining, woken) =>
      if s.gate.inFlight == 0 then s.(closer := Delivering(remaining))
      else s.(closer := Waiting(remaining, woken))
    case Waiting(remaining, _) => s.(closer := ArmingWait(remaining))
    case Delivering(remaining) =>
      if remaining == [] then s.(closer := Returned)
      else s.(closer := Delivering(remaining[1..]), delivered := s.delivered + [remaining[0]])
  }

  function Do(s: State, a: Action): State
    requires Enabled(s, a)
  {
    match a
    case Produce(u) =>
      var (g, ok) := Enqueue(s.gate, u);
      if ok then s.(gate := g, owed := s.owed + 1, accepted := s.accepted + [u]) else s
    case FireOwed => Notify(s).(owed := s.owed - 1)
    case WorkerStep => DoWorker(s)
    case CloserStep => DoCloser(s)
    case Drop => s.(gate := Shut(s.gate), closer := Dropped, owed := s.owed + 1)
  }

  // ---------------------------------------------------------------------------
  // Every reachable state
  // ---------------------------------------------------------------------------

  /** The update the worker has taken and not yet delivered. */
  function InHand(w: Worker): seq<Update> { if w.Sending? then [w.item] else [] }

  /** What the closer still has to deliver. */
  function Held(c: Closer): seq<Update> {
    match c
    case Announcing(r) => r
    case ArmingWait(r) => r
    case CheckingWait(r, _) => r
    case Waiting(r, _) => r
    case Delivering(r) => r
    case _ => []
  }

  /** A `notify_waiters` is still to come from a thread that changed the gate. */
  predicate Coming(s: State) { s.owed > 0 || s.worker.Notifying? || s.closer.Announcing? }

  /** Accounting and wake-ups of every reachable state. */
  ghost predicate Inv(s: State) {
    // first in, first out, nothing lost and nothing twice
    && (!s.closer.Dropped? ==> s.accepted == s.delivered + InHand(s.worker) + Held(s.closer) + s.gate.queue)
    && s.delivered + InHand(s.worker) <= s.accepted
    && (s.gate.accepting <==> s.closer.Running?)
    && (!s.closer.Running? && !s.closer.Dropped? ==> s.gate.queue == [])
    && s.gate.inFlight == (if s.worker.Sending? || s.worker.Sent? then 1 else 0)
    && (s.closer.Delivering? || s.closer.Returned? ==> s.gate.inFlight == 0)
    // nobody sleeps on a condition that already holds without a wake-up coming
    && (s.worker.Sleeping? && !s.worker.woken && (s.gate.queue != [] || !s.gate.accepting) ==> Coming(s))
    && (s.closer.Waiting? && !s.closer.woken && s.gate.inFlight == 0 ==> Coming(s))
    && (s.worker.Exited? ==> !s.gate.accepting && s.gate.queue == [])
    // after a drop while the tool ran, the worker still owes the whole queue
    && (s.closer.Dropped? ==> s.delivered + InHand(s.worker) + s.gate.queue <= s.accepted)
  }

  lemma StartIsInv()
    ensures Inv(START)
  {
  }

  lemma WorkerKeepsInv(s: State)
    requires Inv(s) && WorkerEnabled(s)
    ensures Inv(DoWorker(s))
  {
    match s.worker
    case Popping =>
      if s.gate.queue != [] {
        assert s.gate.queue == [s.gate.queue[0]] + s.gate.queue[1..];
        PopMoves(s.delivered, Held(s.closer), s.gate.queue);
      }
    case _ =>
  }

  /** Popping moves the head of the queue into the worker's hand; the closer
      holds nothing as long as there is a queue. */
  lemma PopMoves(delivered: seq<Update>, held: seq<Update>, queue: seq<Update>)
    requires queue != []
    ensures held == [] ==> delivered + [] + held + queue == delivered + [queue[0]] + held + queue[1..]
    ensures delivered + [] + queue == delivered + [queue[0]] + queue[1..]
    ensures delivered + [queue[0]] <= delivered + [] + queue
  {
    assert queue == [queue[0]] + queue[1..];
  }

  lemma CloserKeepsInv(s: State)
    requires Inv(s) && CloserEnabled(s)
    ensures Inv(DoCloser(s))
  {
    match s.closer
    case Delivering(remaining) =>
      if remaining != [] {
        assert remaining == [remaining[0]] + remaining[1..];
      }
    case _ =>
  }

  /** Every step keeps the invariant. */
  lemma StepKeepsInv(s: State, a: Action)
    requires Inv(s) && Enabled(s, a)
    ensures Inv(Do(s, a))
  {
    match a
    case WorkerStep => WorkerKeepsInv(s);
    case CloserStep => CloserKeepsInv(s);
    case Produce(u) =>
      var hand, held := InHand(s.worker), Held(s.closer);
      ConcatAssociates(s.delivered + hand + held, s.gate.queue, [u]);
    case _ =>
  }

  /** A run of the protocol from its start. */
  ghost predicate Run(trace: seq<State>, actions: seq<Action>) {
    && |trace| == |actions| + 1 && trace[0] == START
    && forall i :: 0 <= i < |actions| ==> Enabled(trace[i], actions[i]) && trace[i + 1] == Do(trace[i], actions[i])
  }

  lemma {:induction false} RunKeepsInv(trace: seq<State>, actions: seq<Action>, i: nat)
    requires Run(trace, actions) && i <= |actions|
    ensures Inv(trace[i])
    decreases i
  {
    hide Inv, Do, Enabled;
    if i == 0 {
      StartIsInv();
    } else {
      RunKeepsInv(trace, actions, i - 1);
      StepKeepsInv(trace[i - 1], actions[i - 1]);
    }
  }

  /** When `close_and_drain` has returned, exactly the accepted updates have been
      delivered, in the order of acceptance and once each. */
  lemma DeliveredIsAccepted(trace: seq<State>, actions: seq<Action>, i: nat)
    requires Run(trace, actions) && i <= |actions| && trace[i].closer.Returned?
    ensures trace[i].delivered == trace[i].accepted
  {
    RunKeepsInv(trace, actions, i);
  }

  /** At any moment of any run, dropped or not, what was delivered is what was
      accepted first. */
  lemma DeliveredIsPrefix(trace: seq<State>, actions: seq<Action>, i: nat)
    requires Run(trace, actions) && i <= |actions|
    ensures trace[i].delivered <= trace[i].accepted
  {
    RunKeepsInv(trace, actions, i);
  }

  lemma {:induction false} NothingAcceptedAfterClose(trace: seq<State>, actions: seq<Action>, i: nat, j: nat)
    requires Run(trace, actions) && i <= j <= |actions| && !trace[i].closer.Running?
    ensures trace[j].accepted == trace[i].accepted && !trace[j].closer.Running?
    decreases j
  {
    if j > i {
      NothingAcceptedAfterClose(trace, actions, i, j - 1);
      RunKeepsInv(trace, actions, j - 1);
    }
  }

  // ---------------------------------------------------------------------------
  // Closing always finishes
  // ---------------------------------------------------------------------------

  function WorkerRank(w: Worker): nat {
    match w
    case Sending(_) => 7
    case Sent => 6
    case Notifying => 5
    case Sleeping(_) => 4
    case Popping => 3
    case Arming => 2
    case Checking(_) => 1
    case Exited => 0
  }

  function CloserRank(c: Closer): nat {
    match c
    case Running => 0
    case Announcing(r) => 7 + |r|
    case Waiting(r, true) => 6 + |r|
    case ArmingWait(r) => 5 + |r|
    case CheckingWait(r, true) => 7 + |r|
    case CheckingWait(r, false) => 4 + |r|
    case Waiting(r, false) => 3 + |r|
    case Delivering(r) => 1 + |r|
    case Returned => 0
    case Dropped => 0
  }

  /** Notifications that can still come once nothing is accepted any more. */
  function Notifications(s: State): nat {
    s.owed + (if s.worker.Sending? || s.worker.Sent? || s.worker.Notifying? then 1 else 0)
  }

  function Measure(s: State): nat { 4 * Notifications(s) + CloserRank(s.closer) + WorkerRank(s.worker) }

  /** Once the gate is closed every step that does anything brings the end nearer... */
  lemma ClosingProgress(s: State, a: Action)
    requires Inv(s) && Enabled(s, a) && !s.closer.Running? && !a.Drop? && !s.closer.Dropped?
    ensures a.Produce? ==> Do(s, a) == s
    ensures !a.Produce? ==> Measure(Do(s, a)) < Measure(s)
  {
  }

  /** ...and until `close_and_drain` returns some thread can always move: no
      wake-up is lost. */
  lemma ClosingNeverStuck(s: State)
    requires Inv(s) && !s.closer.Running? && !s.closer.Returned? && !s.closer.Dropped?
    ensures CloserEnabled(s) || WorkerEnabled(s) || s.owed > 0
  {
  }

  /** The worker never sleeps on while there is work: it is awake, or a wake-up is coming. */
  lemma WorkerNeverStuck(s: State)
    requires Inv(s) && !s.worker.Exited? && (s.gate.queue != [] || !s.gate.accepting)
    ensures WorkerEnabled(s) || Coming(s)
  {
  }

  /** After closing, a schedule of effective steps of any kind has a bounded length,
      and if it is as long as it can be, it ends with everything delivered. */
  ghost predicate Schedule(s: State, actions: seq<Action>)
    decreases |actions|
  {
    actions == []
    || (Enabled(s, actions[0]) && !actions[0].Produce? && !actions[0].Drop?
        && Schedule(Do(s, actions[0]), actions[1..]))
  }

  function After(s: State, actions: seq<Action>): State
    requires Schedule(s, actions)
    decreases |actions|
  {
    if actions == [] then s else After(Do(s, actions[0]), actions[1..])
  }

  lemma {:induction false} ClosingTerminates(s: State, actions: seq<Action>)
    requires Inv(s) && !s.closer.Running? && !s.closer.Dropped? && Schedule(s, actions)
    ensures |actions| <= Measure(s)
    ensures Inv(After(s, actions)) && !After(s, actions).closer.Running? && !After(s, actions).closer.Dropped?
    ensures var end := After(s, actions);
      (forall a :: Enabled(end, a) ==> a.Produce? || a.Drop?) ==>
        end.closer.Returned? && end.worker.Exited? && end.delivered == end.accepted
    decreases |actions|
  {
    if actions == [] {
      StuckMeansReturned(s);
    } else {
      StepKeepsInv(s, actions[0]);
      ClosingProgress(s, actions[0]);
      ClosingTerminates(Do(s, actions[0]), actions[1..]);
    }
  }

  lemma StuckMeansReturned(s: State)
    requires Inv(s) && !s.closer.Running? && !s.closer.Dropped?
    ensures (forall a :: Enabled(s, a) ==> a.Produce? || a.Drop?) ==>
      s.closer.Returned? && s.worker.Exited? && s.delivered == s.accepted
  {
    if forall a :: Enabled(s, a) ==> a.Produce? || a.Drop? {
      assert !Enabled(s, WorkerStep) && !Enabled(s, CloserStep) && !Enabled(s, FireOwed);
    }
  }

  // ---------------------------------------------------------------------------
  // Dropping the tool future
  // ---------------------------------------------------------------------------

  /** Updates taken over by a closer that was dropped are the only ones that can be lost. */
  ghost predicate NothingTaken(s: State) {
    Inv(s) && (s.closer.Running? || s.closer.Dropped?) && s.accepted == s.delivered + InHand(s.worker) + s.gate.queue
  }

  lemma DropWhileRunning(s: State)
    requires Inv(s) && s.closer.Running?
    ensures NothingTaken(s) && NothingTaken(Do(s, Drop))
  {
    assert s.delivered + InHand(s.worker) + [] == s.delivered + InHand(s.worker);
  }

  lemma DroppedKeepsEverything(s: State, a: Action)
    requires NothingTaken(s) && s.closer.Dropped? && Enabled(s, a)
    ensures NothingTaken(Do(s, a))
    ensures Do(s, a).worker.Exited? ==> Do(s, a).delivered == Do(s, a).accepted
  {
    StepKeepsInv(s, a);
    if a.WorkerStep? && s.worker.Popping? && s.gate.queue != [] {
      PopMoves(s.delivered, [], s.gate.queue);
    }
  }

  /** At every moment after a drop while the tool runs, every accepted update is
      delivered, in the worker's hand or queued, and once the worker has exited
      exactly the accepted ones are delivered. */
  lemma {:induction false} DroppedLosesNothing(trace: seq<State>, actions: seq<Action>, i: nat, j: nat)
    requires Run(trace, actions) && i < j <= |actions|
    requires trace[i].closer.Running? && actions[i].Drop?
    ensures NothingTaken(trace[j]) && trace[j].closer.Dropped?
    ensures trace[j].worker.Exited? ==> trace[j].delivered == trace[j].accepted
    decreases j
  {
    RunKeepsInv(trace, actions, i);
    if j == i + 1 {
      DropWhileRunning(trace[i]);
      RunKeepsInv(trace, actions, j);
    } else {
      DroppedLosesNothing(trace, actions, i, j - 1);
      DroppedKeepsEverything(trace[j - 1], actions[j - 1]);
    }
  }
}
