/** What the streaming parser remembers about the text it has read, and the
    step it takes for each character. The class in StreamingParser.dfy is
    proved against this step function; the theorems about it are in
    StreamingRead.dfy, StreamingPrefix.dfy and RepairJson.dfy. */
module StreamingCore {
  import opened Options
  import opened Chars
  import opened Json
  import opened Numbers

  datatype Phase = AtKey | AtColon | AtValue | AtComma

  /** An open container on the stack. */
  datatype Frame =
    | ObjectFrame(entries: seq<Entry>, currentKey: Option<string>, phase: Phase)
    | ArrayFrame(items: seq<Json>, phase: Phase)

  datatype Target = RootTarget | KeyTarget | MemberTarget | ElementTarget

  /** A string still being read: its text so far, the pending escape sequence,
      and a high surrogate that waits for its partner. */
  datatype OpenString = OpenString(target: Target, text: string, escape: string, high: Option<nat>)

  datatype Core = Core(
    root: Option<Json>,
    stack: seq<Frame>,
    open: Option<OpenString>,
    scalar: string,
    scalarTarget: Option<Target>,
    done: bool)

  const FRESH := Core(None, [], None, "", None, false)

  // ---------------------------------------------------------------------------
  // Characters
  // ---------------------------------------------------------------------------

  predicate IsDelimiter(c: char) {
    c == ' ' || c == '\t' || c == '\n' || c == '\r' || c == ',' || c == ':'
    || c == '{' || c == '}' || c == '[' || c == ']' || c == '"'
  }

  predicate IsHexDigit(c: char) { '0' <= c <= '9' || 'a' <= c <= 'f' || 'A' <= c <= 'F' }

  predicate AllHex(s: string) { forall i :: 0 <= i < |s| ==> IsHexDigit(s[i]) }

  function HexDigit(c: char): (n: nat)
    requires IsHexDigit(c)
    ensures n < 16
  {
    if '0' <= c <= '9' then c as int - '0' as int
    else if 'a' <= c <= 'f' then c as int - 'a' as int + 10
    else c as int - 'A' as int + 10
  }

  function Hex4(s: string): (n: nat)
    requires |s| == 4 && AllHex(s)
    ensures n < 0x1_0000
  {
    ((HexDigit(s[0]) * 16 + HexDigit(s[1])) * 16 + HexDigit(s[2])) * 16 + HexDigit(s[3])
  }

  predicate IsHigh(code: int) { 0xD800 <= code <= 0xDBFF }
  predicate IsLow(code: int) { 0xDC00 <= code <= 0xDFFF }

  function Combine(high: nat, low: nat): char
    requires IsHigh(high) && IsLow(low)
  {
    (0x1_0000 + (high - 0xD800) * 0x400 + (low - 0xDC00)) as char
  }

  /** The one-letter escapes. */
  function SimpleEscape(c: char): Option<char> {
    if c == '"' then Some('"')
    else if c == '\\' then Some('\\')
    else if c == '/' then Some('/')
    else if c == 'b' then Some(8 as char)
    else if c == 'f' then Some(12 as char)
    else if c == 'n' then Some('\n')
    else if c == 'r' then Some('\r')
    else if c == 't' then Some('\t')
    else None
  }

  // ---------------------------------------------------------------------------
  // Scalars
  // ---------------------------------------------------------------------------

  function CompleteScalar(token: string): Option<Json> {
    if token == "true" then Some(Bool(true))
    else if token == "false" then Some(Bool(false))
    else if token == "null" then Some(Null)
    else
      match ParseNumber(token)
      case Some(n) => Some(Number(n))
      case None => None
  }

  function TrimEnd(token: string): string {
    if token != [] && token[|token| - 1] in "eE+-" then TrimEnd(token[..|token| - 1]) else token
  }

  /** The value shown for a scalar that is still being typed. */
  function PendingScalar(token: string): Option<Json> {
    if token == [] || Bytes(token) > 64 then None
    else if token <= "true" then Some(Bool(true))
    else if token <= "false" then Some(Bool(false))
    else if token <= "null" then Some(Null)
    else if ParseNumber(token).Some? then Some(Number(ParseNumber(token).value))
    else
      var trimmed := TrimEnd(token);
      if trimmed != token && trimmed != [] && ParseNumber(trimmed).Some?
      then Some(Number(ParseNumber(trimmed).value))
      else None
  }

  // ---------------------------------------------------------------------------
  // Containers
  // ---------------------------------------------------------------------------

  function Top(stack: seq<Frame>): Frame
    requires stack != []
  {
    stack[|stack| - 1]
  }

  function Below(stack: seq<Frame>): seq<Frame>
    requires stack != []
  {
    stack[..|stack| - 1]
  }

  function SetTop(stack: seq<Frame>, f: Frame): seq<Frame>
    requires stack != []
  {
    Below(stack) + [f]
  }

  function SetPhase(f: Frame, p: Phase): Frame {
    match f
    case ObjectFrame(entries, key, _) => ObjectFrame(entries, key, p)
    case ArrayFrame(items, _) => ArrayFrame(items, p)
  }

  function TakeOpen(c: Core): Core { c.(open := None) }

  /** The slot that a value starting now would fill, and the stack with that slot marked. */
  function PrepareSlot(c: Core): (Core, Option<Target>) {
    if c.stack == [] then (c, if c.root.None? then Some(RootTarget) else None)
    else
      match Top(c.stack)
      case ObjectFrame(_, key, phase) =>
        if (phase == AtValue || phase == AtColon) && key.Some?
        then (c.(stack := SetTop(c.stack, SetPhase(Top(c.stack), AtValue))), Some(MemberTarget))
        else (c, None)
      case ArrayFrame(_, _) =>
        (c.(stack := SetTop(c.stack, SetPhase(Top(c.stack), AtValue))), Some(ElementTarget))
  }

  /** Hands a finished value to the innermost open container, or makes it the root. */
  function Place(c: Core, v: Json): Core {
    if c.stack == [] then c.(root := Some(v), done := true)
    else
      match Top(c.stack)
      case ObjectFrame(entries, Some(k), _) =>
        c.(stack := SetTop(c.stack, ObjectFrame(Insert(entries, k, v), None, AtComma)))
      case ObjectFrame(_, None, _) => c
      case ArrayFrame(items, _) => c.(stack := SetTop(c.stack, ArrayFrame(items + [v], AtComma)))
  }

  /** Like `Place`, for a string or scalar that remembers where it was started. */
  function PlaceLeaf(c: Core, target: Target, v: Json): Core {
    match target
    case RootTarget => c.(root := Some(v), done := true)
    case MemberTarget =>
      if c.stack != [] && Top(c.stack).ObjectFrame? then Place(c, v) else c
    case ElementTarget =>
      if c.stack != [] && Top(c.stack).ArrayFrame? then Place(c, v) else c
    case KeyTarget => c
  }

  function FrameValue(f: Frame): Json {
    match f
    case ObjectFrame(entries, _, _) => Object(entries)
    case ArrayFrame(items, _) => Array(items)
  }

  function CloseContainer(c: Core): Core {
    if c.stack == [] then c
    else Place(c.(stack := Below(c.stack)), FrameValue(Top(c.stack)))
  }

  function FinishScalar(c: Core): Core {
    var rest := c.(scalar := "", scalarTarget := None);
    if c.scalarTarget.None? then c.(scalar := "")
    else
      match CompleteScalar(c.scalar)
      case Some(v) =>
        var placed := PlaceLeaf(rest, c.scalarTarget.value, v);
        if placed.stack == [] && placed.root.Some? then placed.(done := true) else placed
      case None => rest
  }

  // ---------------------------------------------------------------------------
  // Strings
  // ---------------------------------------------------------------------------

  /** Appends U+FFFD for a high surrogate that found no partner. */
  function FlushHigh(o: OpenString): OpenString {
    if o.high.Some? then o.(text := o.text + [REPLACEMENT], high := None) else o
  }

  function Push(o: OpenString, c: char): OpenString { o.(text := o.text + [c]) }

  /** The four hex digits of an escape are complete. */
  function EndUnicodeEscape(o: OpenString, code: nat): OpenString
    requires code < 0x1_0000
    requires o.high.Some? ==> IsHigh(o.high.value)
  {
    var closed := o.(escape := "");
    if IsHigh(code) then FlushHigh(closed).(high := Some(code))
    else if IsLow(code) then
      if o.high.Some?
      then Push(closed.(high := None), Combine(o.high.value, code))
      else Push(closed, REPLACEMENT)
    else Push(FlushHigh(closed), code as char)
  }

  function CloseString(c: Core, o: OpenString): Core {
    if o.target == KeyTarget then
      if c.stack != [] && Top(c.stack).ObjectFrame?
      then c.(stack := SetTop(c.stack, Top(c.stack).(currentKey := Some(o.text), phase := AtColon)))
      else c
    else PlaceLeaf(c, o.target, String(o.text))
  }

  /** A character inside a string with no escape pending; `c.open` is already taken. */
  function PlainStringChar(c: Core, o: OpenString, ch: char): Core {
    if ch == '\\' then c.(open := Some(o.(escape := o.escape + [ch])))
    else if ch == '"' then CloseString(c, FlushHigh(o))
    else c.(open := Some(Push(FlushHigh(o), ch)))
  }

  predicate GoodOpen(o: OpenString) {
    && (o.high.Some? ==> IsHigh(o.high.value))
    && (o.escape == "" || o.escape == "\\"
        || (2 <= |o.escape| < 6 && o.escape[..2] == "\\u" && AllHex(o.escape[2..])))
  }

  function StringChar(c: Core, o: OpenString, ch: char): Core
    requires GoodOpen(o)
  {
    if o.escape == "" then PlainStringChar(c, o, ch)
    else if o.escape == "\\" then
      if ch == 'u' then c.(open := Some(o.(escape := "\\u")))
      else
        var flushed := FlushHigh(o.(escape := ""));
        match SimpleEscape(ch)
        case Some(decoded) => c.(open := Some(Push(flushed, decoded)))
        case None => c.(open := Some(Push(Push(flushed, '\\'), ch)))
    else if IsHexDigit(ch) then
      var escape := o.escape + [ch];
      if |escape| == 6
      then c.(open := Some(EndUnicodeEscape(o, Hex4(escape[2..6]))))
      else c.(open := Some(o.(escape := escape)))
    else
      var literal := FlushHigh(o);
      PlainStringChar(c, literal.(text := literal.text + o.escape, escape := ""), ch)
  }

  // ---------------------------------------------------------------------------
  // One character, a whole text
  // ---------------------------------------------------------------------------

  /** A character outside strings and scalars. */
  function StructuralChar(c: Core, ch: char): Core {
    if IsWhitespace(ch) then c
    else if ch == ',' then
      if c.stack != [] && Top(c.stack).phase == AtComma
      then c.(stack := SetTop(c.stack, SetPhase(Top(c.stack), if Top(c.stack).ObjectFrame? then AtKey else AtValue)))
      else c
    else if ch == ':' then
      if c.stack != [] && Top(c.stack).ObjectFrame? && Top(c.stack).phase == AtColon
      then c.(stack := SetTop(c.stack, SetPhase(Top(c.stack), AtValue)))
      else c
    else if ch == '"' then
      if c.stack != [] && Top(c.stack).ObjectFrame? && (Top(c.stack).phase == AtKey || Top(c.stack).phase == AtComma)
      then c.(stack := SetTop(c.stack, SetPhase(Top(c.stack), AtKey)),
              open := Some(OpenString(KeyTarget, "", "", None)))
      else
        var (slotted, target) := PrepareSlot(c);
        if target.Some? then slotted.(open := Some(OpenString(target.value, "", "", None))) else slotted
    else if ch == '{' then
      var (slotted, target) := PrepareSlot(c);
      if target.Some? then slotted.(stack := slotted.stack + [ObjectFrame([], None, AtKey)]) else slotted
    else if ch == '[' then
      var (slotted, target) := PrepareSlot(c);
      if target.Some? then slotted.(stack := slotted.stack + [ArrayFrame([], AtValue)]) else slotted
    else if ch == '}' || ch == ']' then CloseContainer(c)
    else
      var (slotted, target) := PrepareSlot(c);
      if target.Some? then slotted.(scalar := [ch], scalarTarget := target) else slotted
  }

  function Step(c: Core, ch: char): Core
    requires c.open.Some? ==> GoodOpen(c.open.value)
  {
    if c.open.Some? then StringChar(TakeOpen(c), c.open.value, ch)
    else if c.scalarTarget.Some? then
      if IsDelimiter(ch) then
        var finished := FinishScalar(c);
        if finished.done then finished else StructuralChar(finished, ch)
      else c.(scalar := c.scalar + [ch])
    else StructuralChar(c, ch)
  }

  // ---------------------------------------------------------------------------
  // The states that are reached
  // ---------------------------------------------------------------------------

  /** A frame whose child container is open. */
  predicate Waiting(f: Frame) { f.phase == AtValue && (f.ObjectFrame? ==> f.currentKey.Some?) }

  /** An object has a pending key exactly between the key and its value. */
  ghost predicate GoodFrame(f: Frame) {
    f.ObjectFrame? ==> DistinctKeys(f.entries) && (f.currentKey.Some? <==> f.phase == AtColon || f.phase == AtValue)
  }

  ghost predicate GoodStack(stack: seq<Frame>) {
    && (forall i :: 0 <= i < |stack| ==> GoodFrame(stack[i]))
    && (forall i :: 0 <= i < |stack| - 1 ==> Waiting(stack[i]))
  }

  predicate TargetFits(stack: seq<Frame>, t: Target) {
    match t
    case RootTarget => stack == []
    case KeyTarget => stack != [] && Top(stack).ObjectFrame? && Top(stack).phase == AtKey
    case MemberTarget => stack != [] && Top(stack).ObjectFrame? && Waiting(Top(stack))
    case ElementTarget => stack != [] && Top(stack).ArrayFrame? && Waiting(Top(stack))
  }

  ghost predicate Good(c: Core) {
    && GoodStack(c.stack)
    && (c.done <==> c.root.Some?)
    && (c.done ==> c.stack == [] && c.open.None? && c.scalarTarget.None?)
    && (c.open.Some? ==> GoodOpen(c.open.value) && TargetFits(c.stack, c.open.value.target) && c.scalarTarget.None?)
    && (c.scalarTarget.Some? ==> TargetFits(c.stack, c.scalarTarget.value) && c.scalarTarget.value != KeyTarget)
    && (c.scalarTarget.None? ==> c.scalar == "")
  }

  lemma FreshIsGood()
    ensures Good(FRESH)
  {
  }

  lemma GoodBelow(stack: seq<Frame>)
    requires stack != [] && GoodStack(stack)
    ensures GoodStack(Below(stack)) && GoodFrame(Top(stack))
    ensures Below(stack) != [] ==> Waiting(Top(Below(stack)))
  {
    var b := Below(stack);
    assert b != [] ==> b[|b| - 1] == stack[|stack| - 2];
  }

  lemma GoodSetTop(stack: seq<Frame>, f: Frame)
    requires stack != [] && GoodStack(stack) && GoodFrame(f)
    ensures GoodStack(SetTop(stack, f)) && Top(SetTop(stack, f)) == f && SetTop(stack, f) != []
  {
  }

  lemma GoodPush(stack: seq<Frame>, f: Frame)
    requires GoodStack(stack) && GoodFrame(f) && (stack != [] ==> Waiting(Top(stack)))
    ensures GoodStack(stack + [f])
  {
    var s := stack + [f];
    forall i | 0 <= i < |s| - 1
      ensures Waiting(s[i])
    {
      assert s[i] == stack[i];
      assert i == |stack| - 1 ==> stack[i] == Top(stack);
    }
  }

  /** The state with nothing in progress but open containers. */
  ghost predicate Between(c: Core) { Good(c) && !c.done && c.open.None? && c.scalarTarget.None? }

  lemma PlaceIsGood(c: Core, v: Json)
    requires Between(c) && (c.stack != [] ==> Waiting(Top(c.stack)))
    ensures Good(Place(c, v)) && Place(c, v).open.None? && Place(c, v).scalarTarget.None?
  {
    if c.stack != [] {
      GoodBelow(c.stack);
      match Top(c.stack) {
        case ObjectFrame(entries, Some(k), _) =>
          InsertDistinct(entries, k, v);
          GoodSetTop(c.stack, ObjectFrame(Insert(entries, k, v), None, AtComma));
        case ObjectFrame(_, None, _) =>
        case ArrayFrame(items, _) =>
          GoodSetTop(c.stack, ArrayFrame(items + [v], AtComma));
      }
    }
  }

  lemma PrepareIsGood(c: Core)
    requires Between(c)
    ensures var (slotted, target) := PrepareSlot(c);
      && Between(slotted)
      && (target.Some? ==> TargetFits(slotted.stack, target.value) && target.value != KeyTarget)
      && (target.Some? && slotted.stack != [] ==> Waiting(Top(slotted.stack)))
      && (target.None? ==> slotted == c)
      && (target.None? <==> c.stack != [] && Top(c.stack).ObjectFrame? && Top(c.stack).phase in {AtKey, AtComma})
  {
    if c.stack != [] {
      GoodBelow(c.stack);
      if Top(c.stack).ArrayFrame? || Top(c.stack).phase in {AtValue, AtColon} {
        GoodSetTop(c.stack, SetPhase(Top(c.stack), AtValue));
      }
    }
  }

  lemma FinishScalarIsGood(c: Core)
    requires Good(c) && !c.done && c.scalarTarget.Some?
    ensures Good(FinishScalar(c)) && FinishScalar(c).open.None? && FinishScalar(c).scalarTarget.None?
  {
    var rest := c.(scalar := "", scalarTarget := None);
    match CompleteScalar(c.scalar)
    case Some(v) => PlaceIsGood(rest, v);
    case None =>
  }

  lemma CloseContainerIsGood(c: Core)
    requires Between(c)
    ensures Good(CloseContainer(c)) && CloseContainer(c).open.None? && CloseContainer(c).scalarTarget.None?
  {
    if c.stack != [] {
      GoodBelow(c.stack);
      PlaceIsGood(c.(stack := Below(c.stack)), FrameValue(Top(c.stack)));
    }
  }

  lemma CloseStringIsGood(c: Core, o: OpenString)
    requires Between(c) && TargetFits(c.stack, o.target)
    ensures Good(CloseString(c, o)) && CloseString(c, o).open.None? && CloseString(c, o).scalarTarget.None?
  {
    if o.target == KeyTarget {
      GoodBelow(c.stack);
      GoodSetTop(c.stack, Top(c.stack).(currentKey := Some(o.text), phase := AtColon));
    } else {
      PlaceIsGood(c, String(o.text));
    }
  }

  lemma StringCharIsGood(c: Core, o: OpenString, ch: char)
    requires Between(c) && GoodOpen(o) && TargetFits(c.stack, o.target)
    ensures Good(StringChar(c, o, ch))
  {
    if o.escape == "" || (o.escape != "\\" && !IsHexDigit(ch)) {
      var literal := FlushHigh(o);
      var plain := if o.escape == "" then o else literal.(text := literal.text + o.escape, escape := "");
      if ch == '"' {
        CloseStringIsGood(c, FlushHigh(plain));
      }
    } else if o.escape != "\\" {
      var escape := o.escape + [ch];
      assert escape[..2] == o.escape[..2] && escape[2..] == o.escape[2..] + [ch];
    } else {
      assert "\\u"[..2] == "\\u";
    }
  }

  lemma StructuralCharIsGood(c: Core, ch: char)
    requires Between(c)
    ensures Good(StructuralChar(c, ch))
    ensures StructuralChar(c, ch).open.Some? ==> StructuralChar(c, ch).open.value.escape == ""
    ensures ch == '"' <==> StructuralChar(c, ch).open.Some?
  {
    PrepareIsGood(c);
    CloseContainerIsGood(c);
    if c.stack != [] {
      GoodBelow(c.stack);
    }
    var (slotted, target) := PrepareSlot(c);
    if ch == '{' && target.Some? {
      GoodPush(slotted.stack, ObjectFrame([], None, AtKey));
    } else if ch == '[' && target.Some? {
      GoodPush(slotted.stack, ArrayFrame([], AtValue));
    }
  }

  /** Every step keeps the reachable-state invariant. */
  lemma StepIsGood(c: Core, ch: char)
    requires Good(c) && !c.done
    ensures Good(Step(c, ch))
  {
    if c.open.Some? {
      StringCharIsGood(TakeOpen(c), c.open.value, ch);
    } else if c.scalarTarget.Some? {
      if IsDelimiter(ch) {
        FinishScalarIsGood(c);
        if !FinishScalar(c).done {
          StructuralCharIsGood(FinishScalar(c), ch);
        }
      }
    } else {
      StructuralCharIsGood(c, ch);
    }
  }

  /** Reads a whole text, stopping once the root value is complete. */
  function Feed(c: Core, s: string): (r: Core)
    requires Good(c)
    ensures Good(r)
    decreases |s|
  {
    if s == [] || c.done then c
    else
      StepIsGood(c, s[0]);
      Feed(Step(c, s[0]), s[1..])
  }

  /** Cutting the text anywhere makes no difference. */
  lemma {:induction false} FeedConcat(c: Core, a: string, b: string)
    requires Good(c)
    ensures Feed(c, a + b) == Feed(Feed(c, a), b)
    decreases |a|
  {
    if a == [] {
      assert a + b == b;
    } else if !c.done {
      assert (a + b)[0] == a[0] && (a + b)[1..] == a[1..] + b;
      StepIsGood(c, a[0]);
      FeedConcat(Step(c, a[0]), a[1..], b);
    }
  }
}
