/** The weight of the open containers, and what a snapshot of them can cost. */
module StreamingWeight {
  import opened Options
  import opened Json
  import opened StreamingCore
  import opened StreamingPrefix

  function KeyWeight(key: Option<string>): nat {
    if key.Some? then 1 + Bytes(key.value) else 0
  }

  /** Weight of an open container: its closed members and its pending key. */
  function FrameWeight(f: Frame): nat {
    match f
    case ObjectFrame(entries, key, _) => 1 + EntriesWeight(entries) + KeyWeight(key)
    case ArrayFrame(items, _) => 1 + ItemsWeight(items)
  }

  function StackWeight(stack: seq<Frame>): nat {
    if stack == [] then 0 else StackWeight(Below(stack)) + FrameWeight(Top(stack))
  }

  lemma StackWeightPush(stack: seq<Frame>, f: Frame)
    ensures StackWeight(stack + [f]) == StackWeight(stack) + FrameWeight(f)
  {
    assert Below(stack + [f]) == stack;
  }

  lemma StackWeightSetTop(stack: seq<Frame>, f: Frame)
    requires stack != []
    ensures StackWeight(SetTop(stack, f)) == StackWeight(stack) - FrameWeight(Top(stack)) + FrameWeight(f)
  {
    StackWeightPush(Below(stack), f);
  }

  /** What a frame waits for next changes neither its weight nor its value. */
  lemma PhaseKeepsWeight(f: Frame, p: Phase)
    ensures FrameWeight(SetPhase(f, p)) == FrameWeight(f)
    ensures CloseWith(SetPhase(f, p), None) == CloseWith(f, None)
  {
  }

  /** Cost of the unfinished string or scalar. */
  function LeafCost(c: Core): nat {
    if c.open.Some? then (if c.open.value.target == KeyTarget then 0 else 1 + Bytes(c.open.value.text))
    else if c.scalarTarget.Some? && PendingScalar(c.scalar).Some? then 1
    else 0
  }

  function SnapshotCost(c: Core): nat {
    if c.done then 0 else StackWeight(c.stack) + LeafCost(c)
  }

  function OptionWeight(v: Option<Json>): nat {
    if v.Some? then Weight(v.value) else 0
  }

  lemma CloseWithWeight(f: Frame, v: Option<Json>)
    ensures Weight(CloseWith(f, v)) <= FrameWeight(f) + OptionWeight(v)
  {
    match f
    case ObjectFrame(entries, key, _) =>
      if v.Some? && key.Some? {
        InsertWeight(entries, key.value, v.value);
      }
    case ArrayFrame(items, _) =>
      if v.Some? {
        ItemsWeightPush(items, v.value);
      }
  }

  lemma {:induction false} FoldWeight(stack: seq<Frame>, v: Option<Json>)
    ensures OptionWeight(Fold(stack, v)) <= StackWeight(stack) + OptionWeight(v)
    decreases |stack|
  {
    if stack != [] {
      CloseWithWeight(Top(stack), v);
      FoldWeight(Below(stack), Some(CloseWith(Top(stack), v)));
    }
  }

  lemma PendingIsLight(token: string)
    ensures OptionWeight(PendingScalar(token)) <= 1
  {
  }

  /** What a snapshot holds never weighs more than what is charged for it. */
  lemma SnapshotWeight(c: Core)
    requires Good(c) && !c.done
    ensures OptionWeight(Snapshot(c)) <= SnapshotCost(c)
  {
    FoldWeight(c.stack, Leaf(c));
    if c.scalarTarget.Some? {
      PendingIsLight(c.scalar);
    }
  }

  /** Changing the innermost frame in a way that its early closing does not see. */
  lemma FoldSetTop(stack: seq<Frame>, f: Frame, v: Option<Json>, w: Option<Json>)
    requires stack != [] && CloseWith(f, w) == CloseWith(Top(stack), v)
    ensures Fold(SetTop(stack, f), w) == Fold(stack, v)
  {
    assert Below(SetTop(stack, f)) == Below(stack) && Top(SetTop(stack, f)) == f;
  }
}
