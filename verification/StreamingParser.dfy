/** The streaming parser object: its fields, its hand-kept weight counter, its
    copy credit and its cached snapshot. */
module StreamingParser {
  import opened Options
  import opened Chars
  import opened Json
  import opened StreamingCore
  import opened StreamingPrefix
  import opened StreamingWeight
  import opened Words

  const CREDIT_PER_APPEND: nat := 256
  const CREDIT_PER_BYTE: nat := 8

  class StreamingJsonParser {
    var root: Option<Json>
    var stack: seq<Frame>
    var openString: Option<OpenString>
    var scalar: string
    var scalarTarget: Option<Target>
    var done: bool
    var openContainersWeight: nat
    var credit: nat
    var dirty: bool
    var cachedSnapshot: Option<Json>
    var totalSnapshotBytesCopied: nat
    var snapshotRefreshCount: nat
    ghost var appends: nat
    ghost var bytes: nat

    /** The parsing fields as they are. */
    ghost function Fields(): Core
      reads this
    {
      Core(root, stack, openString, scalar, scalarTarget, done)
    }

    /** The state of the text read so far; a finished root may have been moved into the cache. */
    ghost function State(): Core
      reads this
    {
      if done && root.None? then Fields().(root := cachedSnapshot) else Fields()
    }

    /** The weight counter is exact, the cache is current unless marked dirty,
        and everything copied was paid for. */
    ghost predicate Valid()
      reads this
    {
      && Good(State())
      && openContainersWeight == StackWeight(stack)
      && (done && root.None? ==> !dirty)
      && (!dirty ==> cachedSnapshot == Snapshot(State()))
      && totalSnapshotBytesCopied + credit <= CREDIT_PER_APPEND * appends + CREDIT_PER_BYTE * bytes
    }

    constructor ()
      ensures Valid() && State() == FRESH && appends == 0 && bytes == 0
    {
      root, stack, openString, scalar, scalarTarget, done := None, [], None, "", None, false;
      openContainersWeight, credit, dirty, cachedSnapshot := 0, 0, false, None;
      totalSnapshotBytesCopied, snapshotRefreshCount := 0, 0;
      appends, bytes := 0, 0;
    }

    // -------------------------------------------------------------------------
    // Placing values
    // -------------------------------------------------------------------------

    method PrepareValueSlot() returns (target: Option<Target>)
      requires openContainersWeight == StackWeight(stack)
      modifies this`stack
      ensures (Fields(), target) == PrepareSlot(old(Fields()))
      ensures StackWeight(stack) == old(StackWeight(stack))
      ensures Fold(stack, None) == old(Fold(stack, None))
    {
      if stack == [] {
        return if root.None? then Some(RootTarget) else None;
      }
      var marked := SetPhase(Top(stack), AtValue);
      StackWeightSetTop(stack, marked);
      FoldSetTop(stack, marked, None, None);
      match Top(stack)
      case ObjectFrame(_, key, phase) =>
        if (phase == AtValue || phase == AtColon) && key.Some? {
          stack := SetTop(stack, marked);
          target := Some(MemberTarget);
        } else {
          target := None;
        }
      case ArrayFrame(_, _) =>
        stack := SetTop(stack, marked);
        target := Some(ElementTarget);
    }

    /** Stores a value under the pending key; only a displaced entry loses its weight. */
    method InsertMember(value: Json)
      requires stack != [] && Top(stack).ObjectFrame? && Top(stack).currentKey.Some?
      requires openContainersWeight >= StackWeight(stack)
      modifies this`stack, this`openContainersWeight
      ensures Fields() == Place(old(Fields()), value)
      ensures openContainersWeight + Weight(value) - StackWeight(stack)
           == old(openContainersWeight) - old(StackWeight(stack))
    {
      var k := Top(stack).currentKey.value;
      var entries := Top(stack).entries;
      var placed := ObjectFrame(Insert(entries, k, value), None, AtComma);
      InsertWeight(entries, k, value);
      StackWeightSetTop(stack, placed);
      var previous := Lookup(entries, k);
      if previous.Some? {
        assert openContainersWeight >= 1 + Bytes(k) + Weight(previous.value);
        openContainersWeight := SaturatingSub(openContainersWeight, 1 + Bytes(k) + Weight(previous.value));
      }
      stack := SetTop(stack, placed);
    }

    method PushElement(value: Json)
      requires stack != [] && Top(stack).ArrayFrame?
      modifies this`stack
      ensures Fields() == Place(old(Fields()), value)
      ensures StackWeight(stack) == old(StackWeight(stack)) + Weight(value)
    {
      var items := Top(stack).items;
      ItemsWeightPush(items, value);
      StackWeightSetTop(stack, ArrayFrame(items + [value], AtComma));
      stack := SetTop(stack, ArrayFrame(items + [value], AtComma));
    }

    /** A closed container moves into its parent. */
    method CommitClosedContainerValue(value: Json)
      requires openContainersWeight == StackWeight(stack) + Weight(value)
      modifies this`root, this`stack, this`done, this`openContainersWeight
      ensures Fields() == Place(old(Fields()), value)
      ensures openContainersWeight == StackWeight(stack)
    {
      if stack == [] {
        root, done, openContainersWeight := Some(value), true, 0;
      } else if Top(stack).ArrayFrame? {
        PushElement(value);
      } else if Top(stack).currentKey.Some? {
        InsertMember(value);
      } else {
        openContainersWeight := SaturatingSub(openContainersWeight, Weight(value));
      }
    }

    method CloseContainer()
      requires openContainersWeight == StackWeight(stack)
      modifies this`root, this`stack, this`done, this`openContainersWeight, this`dirty
      ensures Fields() == StreamingCore.CloseContainer(old(Fields()))
      ensures openContainersWeight == StackWeight(stack)
      ensures dirty == (old(dirty) || old(stack) != [])
    {
      if stack == [] {
        return;
      }
      var frame := Top(stack);
      stack := Below(stack);
      dirty := true;
      if frame.ObjectFrame? && frame.currentKey.Some? {
        assert openContainersWeight >= 1 + Bytes(frame.currentKey.value);
        openContainersWeight := SaturatingSub(openContainersWeight, 1 + Bytes(frame.currentKey.value));
      }
      CommitClosedContainerValue(FrameValue(frame));
    }

    method PlaceClosedLeaf(target: Target, value: Json)
      requires openContainersWeight == StackWeight(stack)
      requires target == RootTarget ==> stack == []
      modifies this`root, this`stack, this`done, this`openContainersWeight, this`dirty
      ensures Fields() == PlaceLeaf(old(Fields()), target, value)
      ensures openContainersWeight == StackWeight(stack) && dirty
    {
      dirty := true;
      match target
      case RootTarget =>
        root, done, openContainersWeight := Some(value), true, 0;
      case MemberTarget =>
        if stack != [] && Top(stack).ObjectFrame? && Top(stack).currentKey.Some? {
          InsertMember(value);
          openContainersWeight := openContainersWeight + Weight(value);
        }
      case ElementTarget =>
        if stack != [] && Top(stack).ArrayFrame? {
          PushElement(value);
          openContainersWeight := openContainersWeight + Weight(value);
        }
      case KeyTarget =>
    }

    method FinishScalar()
      requires openContainersWeight == StackWeight(stack) && scalarTarget.Some?
      requires scalarTarget == Some(RootTarget) ==> stack == []
      modifies this`root, this`stack, this`done, this`openContainersWeight, this`dirty, this`scalar, this`scalarTarget
      ensures Fields() == StreamingCore.FinishScalar(old(Fields()))
      ensures openContainersWeight == StackWeight(stack) && dirty
    {
      var token, target := scalar, scalarTarget.value;
      scalar, scalarTarget := "", None;
      var value := CompleteScalar(token);
      if value.Some? {
        PlaceClosedLeaf(target, value.value);
        if stack == [] && root.Some? {
          done := true;
        }
      } else {
        dirty := true;
      }
    }

    // -------------------------------------------------------------------------
    // Characters
    // -------------------------------------------------------------------------

    /** Closing a key or a string value. */
    method FinishString(open: OpenString)
      requires openContainersWeight == StackWeight(stack) && TargetFits(stack, open.target)
      modifies this`root, this`stack, this`done, this`openContainersWeight, this`dirty
      ensures Fields() == CloseString(old(Fields()), open)
      ensures openContainersWeight == StackWeight(stack)
      ensures old(dirty) ==> dirty
      ensures !dirty ==> open.target == KeyTarget && done == old(done)
      ensures !dirty ==> Fold(stack, None) == old(Fold(stack, None))
    {
      if open.target == KeyTarget {
        if stack != [] && Top(stack).ObjectFrame? {
          var top := Top(stack);
          var keyed := ObjectFrame(top.entries, Some(open.text), AtColon);
          StackWeightSetTop(stack, keyed);
          FoldSetTop(stack, keyed, None, None);
          if top.currentKey.Some? {
            assert openContainersWeight >= 1 + Bytes(top.currentKey.value);
            openContainersWeight := SaturatingSub(openContainersWeight, 1 + Bytes(top.currentKey.value));
          }
          openContainersWeight := openContainersWeight + (1 + Bytes(open.text));
          stack := SetTop(stack, keyed);
        }
      } else {
        PlaceClosedLeaf(open.target, String(open.text));
      }
    }

    /** One character inside a string. Only a change of a value's text is marked dirty. */
    method FeedStringChar(ch: char)
      requires openContainersWeight == StackWeight(stack) && Good(Fields()) && openString.Some?
      modifies this`root, this`stack, this`done, this`openContainersWeight, this`dirty, this`openString
      ensures Fields() == StringChar(TakeOpen(old(Fields())), old(openString.value), ch)
      ensures openContainersWeight == StackWeight(stack)
      ensures old(dirty) ==> dirty
      ensures !dirty ==> Snapshot(Fields()) == old(Snapshot(Fields()))
    {
      var open := openString.value;
      openString := None;
      var isValueString := open.target != KeyTarget;
      if open.escape != "" {
        if open.escape == "\\" {
          if ch == 'u' {
            openString := Some(open.(escape := "\\u"));
            return;
          }
          open := FlushHigh(open.(escape := ""));
          var mapped := SimpleEscape(ch);
          if mapped.Some? {
            open := Push(open, mapped.value);
          } else {
            open := Push(Push(open, '\\'), ch);
          }
          dirty := dirty || isValueString;
          openString := Some(open);
          return;
        }
        if IsHexDigit(ch) {
          open := FeedHexDigit(open, ch);
          return;
        }
        open := FlushHigh(open);
        open := open.(text := open.text + open.escape, escape := "");
        dirty := dirty || isValueString;
      }
      FeedPlainStringChar(open, ch);
    }

    /** The tail of the same routine, when no escape is pending. */
    method FeedPlainStringChar(open: OpenString, ch: char)
      requires openContainersWeight == StackWeight(stack) && TargetFits(stack, open.target)
      requires openString.None? && scalarTarget.None? && open.escape == ""
      modifies this`root, this`stack, this`done, this`openContainersWeight, this`dirty, this`openString
      ensures Fields() == PlainStringChar(old(Fields()), open, ch)
      ensures openContainersWeight == StackWeight(stack)
      ensures old(dirty) ==> dirty
      ensures !dirty && !old(done) ==> Snapshot(Fields()) == old(Snapshot(Fields().(open := Some(open))))
    {
      var isValueString := open.target != KeyTarget;
      if ch == '\\' {
        openString := Some(open.(escape := open.escape + [ch]));
        return;
      }
      dirty := dirty || (open.high.Some? && isValueString);
      var flushed := FlushHigh(open);
      if ch == '"' {
        FinishString(flushed);
        return;
      }
      openString := Some(Push(flushed, ch));
      dirty := dirty || isValueString;
    }

    /** The next hex digit of a `\u` escape; the fourth one ends it. */
    method FeedHexDigit(open0: OpenString, ch: char) returns (open: OpenString)
      requires GoodOpen(open0) && IsHexDigit(ch) && |open0.escape| >= 2
      modifies this`dirty, this`openString
      ensures openString == Some(open)
      ensures open == (
        var escape := open0.escape + [ch];
        if |escape| == 6 then EndUnicodeEscape(open0, Hex4(escape[2..6])) else open0.(escape := escape))
      ensures old(dirty) ==> dirty
      ensures !dirty ==> open.target == open0.target && (open.target == KeyTarget || open.text == open0.text)
    {
      var isValueString := open0.target != KeyTarget;
      open := open0.(escape := open0.escape + [ch]);
      if |open.escape| == 6 {
        var code := Hex4(open.escape[2..6]);
        open := open.(escape := "");
        if IsHigh(code) {
          dirty := dirty || (open.high.Some? && isValueString);
          open := FlushHigh(open).(high := Some(code));
        } else if IsLow(code) {
          if open.high.Some? {
            open := Push(open.(high := None), Combine(open.high.value, code));
          } else {
            open := Push(open, REPLACEMENT);
          }
          dirty := dirty || isValueString;
        } else {
          open := Push(FlushHigh(open), code as char);
          dirty := dirty || isValueString;
        }
      }
      openString := Some(open);
    }

    /** A character outside strings and scalars. */
    method FeedStructuralChar(ch: char)
      requires openContainersWeight == StackWeight(stack) && Between(Fields())
      modifies this`root, this`stack, this`done, this`openContainersWeight, this`dirty, this`openString, this`scalar,
               this`scalarTarget
      ensures Fields() == StructuralChar(old(Fields()), ch)
      ensures openContainersWeight == StackWeight(stack)
      ensures old(dirty) ==> dirty
      ensures !dirty ==> Snapshot(Fields()) == old(Snapshot(Fields()))
    {
      if IsWhitespace(ch) {
        return;
      }
      if ch == ',' || ch == ':' {
        FeedSeparator(ch);
      } else if ch == '"' && stack != [] && Top(stack).ObjectFrame?
              && (Top(stack).phase == AtKey || Top(stack).phase == AtComma) {
        var marked := SetPhase(Top(stack), AtKey);
        StackWeightSetTop(stack, marked);
        FoldSetTop(stack, marked, None, None);
        stack := SetTop(stack, marked);
        openString := Some(OpenString(KeyTarget, "", "", None));
      } else if ch == '}' || ch == ']' {
        CloseContainer();
      } else {
        StartValue(ch);
      }
    }

    /** A quote, an opening bracket or a scalar character where a value may start. */
    method StartValue(ch: char)
      requires openContainersWeight == StackWeight(stack) && Between(Fields())
      requires ch == '"' ==> stack == [] || Top(stack).ArrayFrame? || Top(stack).phase in {AtColon, AtValue}
      requires !IsWhitespace(ch) && ch !in {',', ':', '}', ']'}
      modifies this`stack, this`openContainersWeight, this`dirty, this`openString, this`scalar, this`scalarTarget
      ensures Fields() == StructuralChar(old(Fields()), ch)
      ensures openContainersWeight == StackWeight(stack)
      ensures old(dirty) ==> dirty
      ensures !dirty ==> Fields() == old(Fields())
    {
      hide StackWeight, Fold, Snapshot;
      PrepareIsGood(Fields());
      var target := PrepareValueSlot();
      if target.Some? {
        dirty := true;
        if ch == '"' {
          openString := Some(OpenString(target.value, "", "", None));
        } else if ch == '{' {
          PushFrame(ObjectFrame([], None, AtKey));
        } else if ch == '[' {
          PushFrame(ArrayFrame([], AtValue));
        } else {
          scalar := [ch];
          scalarTarget := target;
        }
      }
    }

    method PushFrame(f: Frame)
      requires FrameWeight(f) == 1
      modifies this`stack, this`openContainersWeight
      ensures stack == old(stack) + [f]
      ensures openContainersWeight - StackWeight(stack) == old(openContainersWeight) - old(StackWeight(stack))
    {
      StackWeightPush(stack, f);
      stack := stack + [f];
      openContainersWeight := openContainersWeight + 1;
    }

    method FeedSeparator(ch: char)
      requires openContainersWeight == StackWeight(stack) && (ch == ',' || ch == ':')
      modifies this`stack
      ensures Fields() == StructuralChar(old(Fields()), ch)
      ensures StackWeight(stack) == old(StackWeight(stack))
      ensures Fold(stack, None) == old(Fold(stack, None))
    {
      hide StackWeight, Fold, FrameWeight, CloseWith;
      if stack != [] {
        var next := SetPhase(Top(stack), if ch == ':' || Top(stack).ArrayFrame? then AtValue else AtKey);
        PhaseKeepsWeight(Top(stack), next.phase);
        StackWeightSetTop(stack, next);
        FoldSetTop(stack, next, None, None);
        if ch == ',' {
          if Top(stack).phase == AtComma {
            stack := SetTop(stack, next);
          }
        } else if Top(stack).ObjectFrame? && Top(stack).phase == AtColon {
          stack := SetTop(stack, next);
        }
      }
    }

    method FeedChar(ch: char)
      requires openContainersWeight == StackWeight(stack) && Good(Fields()) && !done
      modifies this`root, this`stack, this`done, this`openContainersWeight, this`dirty, this`openString, this`scalar,
               this`scalarTarget
      ensures Fields() == Step(old(Fields()), ch) && Good(Fields())
      ensures openContainersWeight == StackWeight(stack)
      ensures old(dirty) ==> dirty
      ensures !dirty ==> Snapshot(Fields()) == old(Snapshot(Fields()))
    {
      StepIsGood(Fields(), ch);
      if openString.Some? {
        FeedStringChar(ch);
        return;
      }
      if scalarTarget.Some? {
        if IsDelimiter(ch) {
          FinishScalarIsGood(Fields());
          FinishScalar();
          if done {
            return;
          }
        } else {
          scalar := scalar + [ch];
          dirty := true;
          return;
        }
      }
      FeedStructuralChar(ch);
    }

    method FeedAll(piece: string)
      requires openContainersWeight == StackWeight(stack) && Good(State())
      requires done && root.None? ==> !dirty
      requires !dirty ==> cachedSnapshot == Snapshot(State())
      modifies this`root, this`stack, this`done, this`openContainersWeight, this`dirty, this`openString, this`scalar,
               this`scalarTarget
      ensures openContainersWeight == StackWeight(stack)
      ensures State() == Feed(old(State()), piece)
      ensures done && root.None? ==> !dirty
      ensures !dirty ==> cachedSnapshot == Snapshot(State())
    {
      var i := 0;
      while i < |piece| && !done
        invariant i <= |piece|
        invariant openContainersWeight == StackWeight(stack) && Good(State())
        invariant done && root.None? ==> !dirty
        invariant !dirty ==> cachedSnapshot == Snapshot(State())
        invariant Feed(State(), piece[i..]) == Feed(old(State()), piece)
      {
        assert piece[i..][0] == piece[i] && piece[i..][1..] == piece[i + 1..];
        FeedChar(piece[i]);
        i := i + 1;
      }
    }

    /** Reads a piece of text: the state advances by exactly that text, and the
        piece buys credit for 256 + 8 per byte. */
    method Append(piece: string)
      requires Valid()
      modifies this
      ensures Valid()
      ensures State() == Feed(old(State()), piece)
      ensures appends == old(appends) + 1 && bytes == old(bytes) + Bytes(piece)
      ensures totalSnapshotBytesCopied == old(totalSnapshotBytesCopied)
      ensures snapshotRefreshCount == old(snapshotRefreshCount) && cachedSnapshot == old(cachedSnapshot)
      ensures old(credit) + CREDIT_PER_APPEND + CREDIT_PER_BYTE * Bytes(piece) <= U64_MAX ==>
                credit == old(credit) + CREDIT_PER_APPEND + CREDIT_PER_BYTE * Bytes(piece)
    {
      hide Snapshot, Feed, Good, StackWeight;
      GrantCredit(Bytes(piece));
      FeedAll(piece);
    }

    method GrantCredit(n: nat)
      modifies this`credit, this`appends, this`bytes
      ensures appends == old(appends) + 1 && bytes == old(bytes) + n
      ensures credit <= old(credit) + CREDIT_PER_APPEND + CREDIT_PER_BYTE * n
      ensures old(credit) + CREDIT_PER_APPEND + CREDIT_PER_BYTE * n <= U64_MAX ==>
                credit == old(credit) + CREDIT_PER_APPEND + CREDIT_PER_BYTE * n
    {
      credit := SaturatingAdd(credit, SaturatingAdd(CREDIT_PER_APPEND, SaturatingMul(CREDIT_PER_BYTE, n)));
      appends, bytes := appends + 1, bytes + n;
    }

    // -------------------------------------------------------------------------
    // Snapshots
    // -------------------------------------------------------------------------

    method SnapshotCloneCost() returns (cost: nat)
      requires openContainersWeight == StackWeight(stack)
      ensures cost == SnapshotCost(Fields())
    {
      if done {
        return 0;
      }
      var openCost := 0;
      if openString.Some? && openString.value.target != KeyTarget {
        openCost := 1 + Bytes(openString.value.text);
      }
      var pendingCost :=
        if openString.None? && scalarTarget.Some? && PendingScalar(scalar).Some? then 1 else 0;
      return openContainersWeight + openCost + pendingCost;
    }

    /** Copies the open path and closes it from the inside out. */
    method BuildSnapshot() returns (shown: Option<Json>)
      requires Good(Fields()) && !done
      ensures shown == Snapshot(Fields())
    {
      var frames := stack;
      shown := root;
      var leaf: Option<Json> := None;
      var target := KeyTarget;
      if openString.Some? {
        target := openString.value.target;
        if target != KeyTarget {
          leaf := Some(String(openString.value.text));
        }
      } else if scalarTarget.Some? {
        target := scalarTarget.value;
        leaf := PendingScalar(scalar);
      }
      assert leaf == Leaf(Fields());
      if leaf.Some? {
        match target
        case RootTarget =>
          shown := leaf;
        case MemberTarget =>
          frames := SetTop(frames, Absorb(Top(frames), leaf.value));
          FoldSetTop(stack, Absorb(Top(stack), leaf.value), leaf, None);
        case ElementTarget =>
          frames := SetTop(frames, Absorb(Top(frames), leaf.value));
          FoldSetTop(stack, Absorb(Top(stack), leaf.value), leaf, None);
        case KeyTarget =>
      }
      while frames != []
        invariant frames != [] ==> Fold(frames, None) == Snapshot(Fields())
        invariant frames == [] ==> shown == Snapshot(Fields())
        decreases |frames|
      {
        var value := FrameValue(Top(frames));
        ghost var before := frames;
        frames := Below(frames);
        if frames != [] {
          FoldSetTop(frames, Absorb(Top(frames), value), Some(value), None);
          frames := SetTop(frames, Absorb(Top(frames), value));
        } else {
          shown := Some(value);
        }
      }
    }

    /** The cached snapshot, refreshed if something changed and the credit covers the copy. */
    method SnapshotRef() returns (refreshed: bool, shown: Option<Json>)
      requires Valid()
      modifies this
      ensures Valid() && State() == old(State()) && appends == old(appends) && bytes == old(bytes)
      ensures shown == cachedSnapshot
      ensures refreshed ==> old(dirty) && !dirty && shown == Snapshot(State())
      ensures !refreshed ==> shown == old(cachedSnapshot) && dirty == old(dirty)
      ensures !refreshed && dirty ==> SnapshotCost(State()) > credit
      ensures totalSnapshotBytesCopied <= CREDIT_PER_APPEND * appends + CREDIT_PER_BYTE * bytes
      ensures refreshed && !done ==> OptionWeight(shown) <= old(credit) - credit
    {
      if !dirty {
        return false, cachedSnapshot;
      }
      if done {
        if root.Some? {
          cachedSnapshot := root;
          root := None;
        }
        dirty := false;
        snapshotRefreshCount := snapshotRefreshCount + 1;
        return true, cachedSnapshot;
      }
      refreshed := CopySnapshot();
      return refreshed, cachedSnapshot;
    }

    /** Copies the open path if the credit covers the copy. */
    method CopySnapshot() returns (refreshed: bool)
      requires Good(Fields()) && openContainersWeight == StackWeight(stack) && !done
      modifies this`credit, this`dirty, this`totalSnapshotBytesCopied, this`snapshotRefreshCount, this`cachedSnapshot
      ensures refreshed == (SnapshotCost(Fields()) <= old(credit))
      ensures refreshed ==> !dirty && cachedSnapshot == Snapshot(Fields())
      ensures refreshed ==> OptionWeight(cachedSnapshot) <= old(credit) - credit
      ensures totalSnapshotBytesCopied + credit <= old(totalSnapshotBytesCopied + credit)
      ensures !refreshed ==>
        && credit == old(credit) && dirty == old(dirty) && cachedSnapshot == old(cachedSnapshot)
        && totalSnapshotBytesCopied == old(totalSnapshotBytesCopied)
    {
      var cost := SnapshotCloneCost();
      if cost > credit {
        return false;
      }
      SnapshotWeight(Fields());
      credit := SaturatingSub(credit, cost);
      dirty := false;
      totalSnapshotBytesCopied := SaturatingAdd(totalSnapshotBytesCopied, cost);
      snapshotRefreshCount := snapshotRefreshCount + 1;
      cachedSnapshot := BuildSnapshot();
      return true;
    }
  }

  /** A frame that takes in its unfinished member. */
  function Absorb(f: Frame, v: Json): (g: Frame)
    ensures CloseWith(g, None) == CloseWith(f, Some(v))
  {
    match f
    case ObjectFrame(entries, Some(k), _) => ObjectFrame(Insert(entries, k, v), None, AtComma)
    case ObjectFrame(_, None, _) => f
    case ArrayFrame(items, _) => ArrayFrame(items + [v], AtComma)
  }
}
