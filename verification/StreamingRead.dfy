/** The streaming parser reads every JSON text to the value it denotes. */
module StreamingRead {
  import opened Chars
  import opened Options
  import opened Json
  import opened Numbers
  import opened StreamingCore
  import opened JsonText
  import opened Seqs

  // ---------------------------------------------------------------------------
  // Small steps
  // ---------------------------------------------------------------------------

  lemma FeedOne(c: Core, ch: char)
    requires Good(c)
    ensures Feed(c, [ch]) == if c.done then c else Step(c, ch)
  {
    if !c.done {
      StepIsGood(c, ch);
      assert [ch][1..] == "";
    }
  }

  lemma FeedCons(c: Core, ch: char, s: string)
    requires Good(c)
    ensures Feed(c, [ch] + s) == if c.done then c else (StepIsGood(c, ch); Feed(Step(c, ch), s))
  {
    assert ([ch] + s)[0] == ch && ([ch] + s)[1..] == s;
  }

  lemma {:induction false} FeedBlank(c: Core, s: string)
    requires Between(c) && IsBlank(s)
    ensures Feed(c, s) == c
  {
    if s != [] {
      FeedBlank(c, s[1..]);
    }
  }

  // ---------------------------------------------------------------------------
  // Strings
  // ---------------------------------------------------------------------------

  /** A string being read, between two of its characters. */
  predicate InString(c: Core, target: Target, text: string) {
    c.open == Some(OpenString(target, text, "", None))
  }

  function WithText(c: Core, target: Target, text: string): Core {
    c.(open := Some(OpenString(target, text, "", None)))
  }

  function WithEscape(c: Core, o: OpenString, escape: string): Core { c.(open := Some(o.(escape := escape))) }

  lemma HexStep(c: Core, o: OpenString, read: string, digit: char)
    requires Good(c) && c.open == Some(o) && |read| < 3 && AllHex(read) && IsHexDigit(digit)
    ensures Good(WithEscape(c, o, "\\u" + read)) && Good(WithEscape(c, o, "\\u" + (read + [digit])))
    ensures Feed(WithEscape(c, o, "\\u" + read), [digit]) == WithEscape(c, o, "\\u" + (read + [digit]))
  {
    assert ("\\u" + read)[..2] == "\\u" && ("\\u" + read)[2..] == read;
    var longer := read + [digit];
    assert ("\\u" + longer)[..2] == "\\u" && ("\\u" + longer)[2..] == longer;
    assert "\\u" + read + [digit] == "\\u" + longer;
    FeedOne(WithEscape(c, o, "\\u" + read), digit);
  }

  lemma LastHexStep(c: Core, o: OpenString, h: string)
    requires Good(c) && c.open == Some(o) && IsHex4(h)
    ensures Good(WithEscape(c, o, "\\u" + h[..3]))
    ensures Feed(WithEscape(c, o, "\\u" + h[..3]), [h[3]])
         == c.(open := Some(EndUnicodeEscape(o.(escape := ""), Hex4(h))))
  {
    var read := h[..3];
    assert ("\\u" + read)[..2] == "\\u" && ("\\u" + read)[2..] == read;
    assert ("\\u" + read + [h[3]])[2..6] == h;
    FeedOne(WithEscape(c, o, "\\u" + read), h[3]);
  }

  lemma EscapeU(c: Core, o: OpenString)
    requires Good(c) && c.open == Some(o) && o.escape == ""
    ensures Good(WithEscape(c, o, "\\u" + ""))
    ensures Feed(c, "\\u") == WithEscape(c, o, "\\u" + "")
  {
    assert "\\u" + "" == "\\u";
    assert "\\u"[..2] == "\\u" && "\\u"[2..] == "";
    var c1 := c.(open := Some(o.(escape := "\\")));
    StepIsGood(c, '\\');
    assert Step(c, '\\') == c1;
    FeedCons(c, '\\', "u");
    FeedOne(c1, 'u');
    assert ['\\'] + "u" == "\\u";
  }

  lemma FeedUnicodeEscape(c: Core, o: OpenString, h: string)
    requires Good(c) && c.open == Some(o) && o.escape == "" && IsHex4(h)
    ensures Feed(c, "\\u" + h) == c.(open := Some(EndUnicodeEscape(o.(escape := ""), Hex4(h))))
  {
    hide Feed, Step, StringChar, EndUnicodeEscape, Hex4, Good;
    EscapeU(c, o);
    HexStep(c, o, "", h[0]);
    assert "" + [h[0]] == h[..1];
    HexStep(c, o, h[..1], h[1]);
    assert h[..1] + [h[1]] == h[..2];
    HexStep(c, o, h[..2], h[2]);
    assert h[..2] + [h[2]] == h[..3];
    LastHexStep(c, o, h);
    FeedConcat(c, "\\u", [h[0]]);
    FeedConcat(c, "\\u" + [h[0]], [h[1]]);
    FeedConcat(c, "\\u" + [h[0]] + [h[1]], [h[2]]);
    FeedConcat(c, "\\u" + [h[0]] + [h[1]] + [h[2]], [h[3]]);
    assert "\\u" + h == "\\u" + [h[0]] + [h[1]] + [h[2]] + [h[3]];
  }

  /** Any way of writing a character appends that character. */
  lemma FeedItem(c: Core, target: Target, text: string, it: StrItem)
    requires Good(c) && InString(c, target, text) && ValidItem(it)
    ensures Feed(c, ItemText(it)) == WithText(c, target, text + [ItemChar(it)])
  {
    var o := c.open.value;
    match it
    case Raw(ch) => FeedOne(c, ch);
    case Short(e) =>
      StepIsGood(c, '\\');
      FeedCons(c, '\\', [e]);
      FeedOne(Step(c, '\\'), e);
      assert ['\\', e] == ['\\'] + [e];
    case Unicode(h) => FeedUnicodeEscape(c, o, h);
    case Pair(h, l) =>
      FeedUnicodeEscape(c, o, h);
      var c1 := Feed(c, "\\u" + h);
      assert c1 == c.(open := Some(o.(high := Some(Hex4(h)))));
      FeedUnicodeEscape(c1, c1.open.value, l);
      FeedConcat(c, "\\u" + h, "\\u" + l);
  }

  lemma FeedNothing(c: Core)
    requires Good(c)
    ensures Feed(c, "") == c
  {
  }

  lemma InStringIs(c: Core, target: Target, text: string)
    requires InString(c, target, text)
    ensures WithText(c, target, text) == c
  {
  }

  lemma WithTextIsGood(c: Core, target: Target, text: string, next: string)
    requires Good(c) && InString(c, target, text)
    ensures Good(WithText(c, target, next)) && InString(WithText(c, target, next), target, next)
    ensures forall t :: WithText(WithText(c, target, next), target, t) == WithText(c, target, t)
  {
  }

  lemma {:induction false} FeedItems(c: Core, target: Target, text: string, items: seq<StrItem>)
    requires Good(c) && InString(c, target, text) && ValidItems(items)
    ensures Feed(c, ItemsText(items)) == WithText(c, target, text + ItemsValue(items))
    decreases |items|
  {
    hide Feed, Step, Good, ItemText, ItemChar, Combine, ValidItem, WithText, InString;
    if items == [] {
      ConcatNothing(text);
      FeedNothing(c);
      InStringIs(c, target, text);
    } else {
      WithTextIsGood(c, target, text, text + [ItemChar(items[0])]);
      FeedItem(c, target, text, items[0]);
      var c1 := WithText(c, target, text + [ItemChar(items[0])]);
      FeedItems(c1, target, text + [ItemChar(items[0])], items[1..]);
      FeedConcat(c, ItemText(items[0]), ItemsText(items[1..]));
      ConcatAssociates(text, [ItemChar(items[0])], ItemsValue(items[1..]));
    }
  }

  lemma FeedStringBody(c: Core, target: Target, items: seq<StrItem>)
    requires Good(c) && InString(c, target, "") && ValidItems(items)
    ensures Feed(c, ItemsText(items) + "\"")
         == CloseString(TakeOpen(c), OpenString(target, ItemsValue(items), "", None))
  {
    FeedItems(c, target, "", items);
    assert "" + ItemsValue(items) == ItemsValue(items);
    FeedConcat(c, ItemsText(items), "\"");
    FeedOne(Feed(c, ItemsText(items)), '"');
  }

  // ---------------------------------------------------------------------------
  // Values in a slot
  // ---------------------------------------------------------------------------

  /** A value may start here. */
  ghost predicate CanStart(c: Core) { Between(c) && PrepareSlot(c).1.Some? }

  function Slotted(c: Core): Core { PrepareSlot(c).0 }

  /** Marking the slot first does not change what placing a value gives. */
  lemma PlaceSlotted(c: Core, v: Json)
    requires CanStart(c)
    ensures Place(Slotted(c), v) == Place(c, v)
    ensures CanStart(Slotted(c)) && Slotted(Slotted(c)) == Slotted(c)
    ensures Good(Place(c, v)) && (!Place(c, v).done ==> Between(Place(c, v)))
    ensures Place(c, v).done <==> c.stack == []
    ensures Below(Slotted(c).stack + [ArrayFrame([], AtValue)]) == Slotted(c).stack
  {
    PrepareIsGood(c);
    PlaceIsGood(Slotted(c), v);
    if c.stack != [] {
      assert Below(Slotted(c).stack) == Below(c.stack);
      assert SetTop(Slotted(c).stack, Top(Slotted(c).stack)) == Slotted(c).stack;
    }
  }

  /** The state while a scalar is being read. */
  function Reading(c: Core, token: string): Core {
    Slotted(c).(scalar := token, scalarTarget := PrepareSlot(c).1)
  }

  lemma ReadingIsGood(c: Core, token: string)
    requires CanStart(c)
    ensures Good(Reading(c, token)) && !Reading(c, token).done
  {
    PrepareIsGood(c);
  }

  predicate IsTokenChar(ch: char) { !IsDelimiter(ch) && !IsWhitespace(ch) }

  lemma ScalarTokenChars(token: string)
    requires CompleteScalar(token).Some?
    ensures token != [] && forall i :: 0 <= i < |token| ==> IsTokenChar(token[i])
  {
    hide ParseNumber;
    if token != "true" && token != "false" && token != "null" {
      NumberToken(token);
    }
  }

  lemma {:induction false} FeedTokenRest(c: Core, read: string, rest: string)
    requires CanStart(c) && forall i :: 0 <= i < |rest| ==> IsTokenChar(rest[i])
    requires Good(Reading(c, read))
    ensures Feed(Reading(c, read), rest) == Reading(c, read + rest)
    decreases |rest|
  {
    if rest == [] {
      assert read + rest == read;
    } else {
      ReadingIsGood(c, read);
      ReadingIsGood(c, read + [rest[0]]);
      FeedTokenRest(c, read + [rest[0]], rest[1..]);
      assert read + [rest[0]] + rest[1..] == read + rest;
    }
  }

  lemma FeedToken(c: Core, token: string)
    requires CanStart(c) && token != [] && forall i :: 0 <= i < |token| ==> IsTokenChar(token[i])
    ensures Feed(c, token) == Reading(c, token)
  {
    ReadingIsGood(c, [token[0]]);
    assert Step(c, token[0]) == Reading(c, [token[0]]);
    FeedTokenRest(c, [token[0]], token[1..]);
    assert [token[0]] + token[1..] == token;
  }

  /** The character that ends a scalar is then read after the placed value. */
  lemma EndScalar(c: Core, token: string, ch: char)
    requires CanStart(c) && CompleteScalar(token).Some? && IsDelimiter(ch)
    ensures Good(Reading(c, token)) && Good(Place(c, CompleteScalar(token).value))
    ensures Feed(Reading(c, token), [ch]) == Feed(Place(c, CompleteScalar(token).value), [ch])
  {
    var v := CompleteScalar(token).value;
    PlaceSlotted(c, v);
    PrepareIsGood(c);
    ReadingIsGood(c, token);
    FeedOne(Reading(c, token), ch);
    FeedOne(Place(c, v), ch);
    assert Slotted(c).(scalar := "", scalarTarget := None) == Slotted(c);
    assert FinishScalar(Reading(c, token)) == Place(c, v);
  }

  // ---------------------------------------------------------------------------
  // The main induction
  // ---------------------------------------------------------------------------

  /** `c` is ready for the rest of a text exactly as `placed` is: either it is
      `placed`, or a scalar is pending and the next character ends it. */
  ghost predicate Ready(c: Core, placed: Core) {
    Good(c) && Good(placed) && forall ch | IsDelimiter(ch) :: Feed(c, [ch]) == Feed(placed, [ch])
  }

  lemma ReadyThen(c: Core, placed: Core, ch: char, s: string)
    requires Ready(c, placed) && IsDelimiter(ch)
    ensures Feed(c, [ch] + s) == Feed(placed, [ch] + s)
  {
    FeedConcat(c, [ch], s);
    FeedConcat(placed, [ch], s);
  }

  /** White space and then a delimiter. */
  lemma ReadyAfterBlank(c: Core, placed: Core, blank: string, ch: char, s: string)
    requires Ready(c, placed) && IsDelimiter(ch) && Between(placed) && IsBlank(blank)
    ensures Feed(c, blank + ([ch] + s)) == Feed(placed, [ch] + s)
  {
    hide Feed, Step, Good;
    FeedBlank(placed, blank);
    FeedConcat(placed, blank, [ch] + s);
    if blank == [] {
      assert blank + ([ch] + s) == [ch] + s;
      ReadyThen(c, placed, ch, s);
    } else {
      var rest := blank[1..] + ([ch] + s);
      assert blank + ([ch] + s) == [blank[0]] + rest;
      ReadyThen(c, placed, blank[0], rest);
    }
  }

  /** The state inside an array that was opened in slot `c` and has `items` so far. */
  function InArray(c: Core, items: seq<Json>, phase: Phase): Core {
    Slotted(c).(stack := Slotted(c).stack + [ArrayFrame(items, phase)])
  }

  function InObject(c: Core, entries: seq<Entry>, key: Option<string>, phase: Phase): Core {
    Slotted(c).(stack := Slotted(c).stack + [ObjectFrame(entries, key, phase)])
  }

  lemma OpenArray(c: Core, rest: string)
    requires CanStart(c)
    ensures Good(InArray(c, [], AtValue))
    ensures Feed(c, "[" + rest) == Feed(InArray(c, [], AtValue), rest)
  {
    StepIsGood(c, '[');
    FeedCons(c, '[', rest);
  }

  lemma OpenObject(c: Core, rest: string)
    requires CanStart(c)
    ensures Good(InObject(c, [], None, AtKey))
    ensures Feed(c, "{" + rest) == Feed(InObject(c, [], None, AtKey), rest)
  {
    StepIsGood(c, '{');
    FeedCons(c, '{', rest);
  }

  lemma TopOfPush(base: seq<Frame>, f: Frame)
    ensures Below(base + [f]) == base && Top(base + [f]) == f && base + [f] != []
  {
  }

  /** Pushing a well-formed frame onto a marked slot. */
  lemma PushIsBetween(c: Core, f: Frame)
    requires CanStart(c) && GoodFrame(f)
    ensures Between(Slotted(c).(stack := Slotted(c).stack + [f]))
  {
    hide GoodFrame;
    PrepareIsGood(c);
    GoodPush(Slotted(c).stack, f);
  }

  lemma SlotInTop(c: Core, base: seq<Frame>, f: Frame)
    requires c.stack == base + [f]
    ensures f.ArrayFrame? ==> PrepareSlot(c) == (c.(stack := base + [SetPhase(f, AtValue)]), Some(ElementTarget))
    ensures f.ObjectFrame? && f.currentKey.Some? && f.phase in {AtColon, AtValue} ==>
              PrepareSlot(c) == (c.(stack := base + [SetPhase(f, AtValue)]), Some(MemberTarget))
  {
    TopOfPush(base, f);
  }

  lemma InArrayIsBetween(c: Core, items: seq<Json>, phase: Phase)
    requires CanStart(c)
    ensures Between(InArray(c, items, phase)) && CanStart(InArray(c, items, phase))
    ensures Slotted(InArray(c, items, phase)) == InArray(c, items, AtValue)
  {
    hide PrepareSlot;
    PushIsBetween(c, ArrayFrame(items, phase));
    SlotInTop(InArray(c, items, phase), Slotted(c).stack, ArrayFrame(items, phase));
  }

  lemma InArrayPlace(c: Core, items: seq<Json>, phase: Phase, v: Json)
    ensures Place(InArray(c, items, phase), v) == InArray(c, items + [v], AtComma)
  {
    TopOfPush(Slotted(c).stack, ArrayFrame(items, phase));
  }

  lemma InArrayClose(c: Core, items: seq<Json>, phase: Phase)
    requires CanStart(c)
    ensures CloseContainer(InArray(c, items, phase)) == Place(c, Array(items))
  {
    TopOfPush(Slotted(c).stack, ArrayFrame(items, phase));
    PlaceSlotted(c, Array(items));
  }

  lemma InObjectIsBetween(c: Core, entries: seq<Entry>, key: Option<string>, phase: Phase)
    requires CanStart(c) && GoodFrame(ObjectFrame(entries, key, phase))
    ensures Between(InObject(c, entries, key, phase))
    ensures key.Some? ==>
      && CanStart(InObject(c, entries, key, phase))
      && Slotted(InObject(c, entries, key, phase)) == InObject(c, entries, key, AtValue)
  {
    hide PrepareSlot, DistinctKeys;
    PushIsBetween(c, ObjectFrame(entries, key, phase));
    SlotInTop(InObject(c, entries, key, phase), Slotted(c).stack, ObjectFrame(entries, key, phase));
  }

  lemma InObjectPlace(c: Core, entries: seq<Entry>, key: string, phase: Phase, v: Json)
    ensures Place(InObject(c, entries, Some(key), phase), v) == InObject(c, Insert(entries, key, v), None, AtComma)
  {
    TopOfPush(Slotted(c).stack, ObjectFrame(entries, Some(key), phase));
  }

  lemma InObjectClose(c: Core, entries: seq<Entry>, key: Option<string>, phase: Phase)
    requires CanStart(c)
    ensures CloseContainer(InObject(c, entries, key, phase)) == Place(c, Object(entries))
  {
    TopOfPush(Slotted(c).stack, ObjectFrame(entries, key, phase));
    PlaceSlotted(c, Object(entries));
  }

  /** `"key" beforeColon : beforeValue` inside an object. */
  lemma ReadKey(c: Core, entries: seq<Entry>, phase: Phase, m: Member)
    requires CanStart(c) && DistinctKeys(entries) && phase in {AtKey, AtComma}
    requires ValidItems(m.key) && IsBlank(m.beforeColon) && IsBlank(m.beforeValue)
    ensures Good(InObject(c, entries, None, phase))
    ensures Feed(InObject(c, entries, None, phase), KeyText(m))
         == InObject(c, entries, Some(ItemsValue(m.key)), AtValue)
  {
    var k := ItemsValue(m.key);
    var c0 := InObject(c, entries, None, phase);
    InObjectIsBetween(c, entries, None, phase);
    ReadQuotedKey(c, entries, phase, m.key);
    var c2 := InObject(c, entries, Some(k), AtColon);
    var c3 := InObject(c, entries, Some(k), AtValue);
    InObjectIsBetween(c, entries, Some(k), AtColon);
    InObjectIsBetween(c, entries, Some(k), AtValue);
    FeedBlank(c2, m.beforeColon);
    FeedConcat(c0, Quoted(m.key), m.beforeColon + (":" + m.beforeValue));
    FeedConcat(c2, m.beforeColon, ":" + m.beforeValue);
    FeedCons(c2, ':', m.beforeValue);
    assert Step(c2, ':') == c3;
    FeedBlank(c3, m.beforeValue);
  }

  lemma OpenKey(c: Core, entries: seq<Entry>, phase: Phase)
    requires CanStart(c) && DistinctKeys(entries) && phase in {AtKey, AtComma}
    ensures var c0 := InObject(c, entries, None, phase);
      && Between(c0)
      && Step(c0, '"') == WithText(InObject(c, entries, None, AtKey), KeyTarget, "")
      && Good(Step(c0, '"'))
  {
    var c0 := InObject(c, entries, None, phase);
    InObjectIsBetween(c, entries, None, phase);
    OpenKeyInFrame(c0, Slotted(c).stack, ObjectFrame(entries, None, phase));
  }

  lemma OpenKeyInFrame(c: Core, base: seq<Frame>, f: Frame)
    requires Between(c) && c.stack == base + [f] && f.ObjectFrame? && f.phase in {AtKey, AtComma}
    ensures Step(c, '"') == WithText(c.(stack := base + [SetPhase(f, AtKey)]), KeyTarget, "")
    ensures Good(Step(c, '"'))
  {
    assert Below(c.stack) == base && Top(c.stack) == f;
    StepIsGood(c, '"');
  }

  lemma ReadQuotedKey(c: Core, entries: seq<Entry>, phase: Phase, key: seq<StrItem>)
    requires CanStart(c) && DistinctKeys(entries) && phase in {AtKey, AtComma} && ValidItems(key)
    ensures Good(InObject(c, entries, None, phase))
    ensures Feed(InObject(c, entries, None, phase), Quoted(key)) == InObject(c, entries, Some(ItemsValue(key)), AtColon)
  {
    var c0 := InObject(c, entries, None, phase);
    OpenKey(c, entries, phase);
    FeedCons(c0, '"', ItemsText(key) + "\"");
    FeedStringBody(Step(c0, '"'), KeyTarget, key);
    var o := OpenString(KeyTarget, ItemsValue(key), "", None);
    var base := Slotted(c).stack;
    var f := ObjectFrame(entries, None, AtKey);
    assert Below(base + [f]) == base && Top(base + [f]) == f;
  }

  /** Reading a text in a slot places its value there. */
  lemma {:induction false} ReadDoc(c: Core, d: Doc)
    requires CanStart(c) && ValidDoc(d)
    ensures Ready(Feed(c, Text(d)), Place(c, Denote(d)))
    ensures !d.Scalar? ==> Feed(c, Text(d)) == Place(c, Denote(d))
    decreases d, 1
  {
    hide Step, PrepareSlot, Slotted, Place, Feed, CanStart, CompleteScalar, Good;
    match d
    case Str(items) => ReadString(c, items);
    case Scalar(token) => ReadScalar(c, token);
    case Arr(elems, blank) =>
      if elems == [] {
        ReadEmptyArray(c, blank);
      } else {
        OpenArray(c, ElemsText(elems));
        ReadElems(c, [], elems);
        assert [] + DenoteElems(elems) == DenoteElems(elems);
        PlaceIsReady(c, Denote(d));
      }
    case Obj(members, blank) =>
      if members == [] {
        ReadEmptyObject(c, blank);
      } else {
        OpenObject(c, MembersText(members));
        EmptyIsDistinct();
        ReadMembers(c, [], members);
        PlaceIsReady(c, Denote(d));
      }
  }

  lemma EmptyIsDistinct()
    ensures DistinctKeys([])
  {
  }

  lemma PlaceIsReady(c: Core, v: Json)
    requires CanStart(c)
    ensures Ready(Place(c, v), Place(c, v))
  {
    PlaceSlotted(c, v);
  }

  lemma ReadString(c: Core, items: seq<StrItem>)
    requires CanStart(c) && ValidItems(items)
    ensures Ready(Feed(c, Quoted(items)), Place(c, String(ItemsValue(items))))
    ensures Feed(c, Quoted(items)) == Place(c, String(ItemsValue(items)))
  {
    PlaceSlotted(c, String(ItemsValue(items)));
    OpenStringValue(c);
    FeedCons(c, '"', ItemsText(items) + "\"");
    FeedStringBody(Step(c, '"'), PrepareSlot(c).1.value, items);
  }

  lemma OpenStringValue(c: Core)
    requires CanStart(c)
    ensures Step(c, '"') == WithText(Slotted(c), PrepareSlot(c).1.value, "") && Good(Step(c, '"'))
    ensures TakeOpen(Step(c, '"')) == Slotted(c) && TargetFits(Slotted(c).stack, PrepareSlot(c).1.value)
    ensures PrepareSlot(c).1 != Some(KeyTarget)
  {
    PrepareIsGood(c);
    StepIsGood(c, '"');
  }

  lemma ReadScalar(c: Core, token: string)
    requires CanStart(c) && CompleteScalar(token).Some?
    ensures Ready(Feed(c, token), Place(c, CompleteScalar(token).value))
  {
    hide Step, PrepareSlot, Slotted, Place, Feed, CompleteScalar, Reading;
    var v := CompleteScalar(token).value;
    ScalarTokenChars(token);
    FeedToken(c, token);
    PlaceSlotted(c, v);
    forall ch | IsDelimiter(ch)
      ensures Feed(Feed(c, token), [ch]) == Feed(Place(c, v), [ch])
    {
      EndScalar(c, token, ch);
    }
  }

  lemma ReadEmptyArray(c: Core, blank: string)
    requires CanStart(c) && IsBlank(blank)
    ensures Ready(Feed(c, "[" + (blank + "]")), Place(c, Array([])))
    ensures Feed(c, "[" + (blank + "]")) == Place(c, Array([]))
  {
    hide PrepareSlot, Slotted, Place, Feed, CloseContainer, CanStart;
    OpenArray(c, blank + "]");
    InArrayIsBetween(c, [], AtValue);
    FeedBlank(InArray(c, [], AtValue), blank);
    FeedConcat(InArray(c, [], AtValue), blank, "]");
    FeedOne(InArray(c, [], AtValue), ']');
    InArrayClose(c, [], AtValue);
    PlaceIsReady(c, Array([]));
  }

  lemma ReadEmptyObject(c: Core, blank: string)
    requires CanStart(c) && IsBlank(blank)
    ensures Ready(Feed(c, "{" + (blank + "}")), Place(c, Object([])))
    ensures Feed(c, "{" + (blank + "}")) == Place(c, Object([]))
  {
    hide PrepareSlot, Slotted, Place, Feed, CloseContainer, CanStart;
    OpenObject(c, blank + "}");
    InObjectIsBetween(c, [], None, AtKey);
    FeedBlank(InObject(c, [], None, AtKey), blank);
    FeedConcat(InObject(c, [], None, AtKey), blank, "}");
    FeedOne(InObject(c, [], None, AtKey), '}');
    InObjectClose(c, [], None, AtKey);
    PlaceIsReady(c, Object([]));
  }

  /** One value between blanks, then a delimiter. */
  lemma ThenDelimiter(c: Core, placed: Core, before: string, text: string, after: string, ch: char, ending: string)
    requires Between(c) && IsBlank(before) && IsBlank(after) && IsDelimiter(ch)
    requires Ready(Feed(c, text), placed) && Between(placed)
    ensures Feed(c, before + (text + (after + ([ch] + ending)))) == Feed(placed, [ch] + ending)
  {
    hide Feed, Step, Good;
    FeedBlank(c, before);
    FeedConcat(c, before, text + (after + ([ch] + ending)));
    FeedConcat(c, text, after + ([ch] + ending));
    ReadyAfterBlank(Feed(c, text), placed, after, ch, ending);
  }

  /** The rest of an array, up to and including its closing bracket. */
  lemma {:induction false} ReadElems(c: Core, items: seq<Json>, es: seq<Elem>)
    requires CanStart(c) && es != [] && ValidElems(es)
    ensures Good(InArray(c, items, AtValue))
    ensures Feed(InArray(c, items, AtValue), ElemsText(es)) == Place(c, Array(items + DenoteElems(es)))
    decreases es, 0
  {
    hide Step, PrepareSlot, Slotted, Place, Feed, CanStart, InArray, Good, Ready, Text, Denote, ValidDoc;
    var v := Denote(es[0].doc);
    var next := items + [v];
    var ending := if |es| == 1 then "" else ElemsText(es[1..]);
    var ch := if |es| == 1 then ']' else ',';
    ElementStates(c, items, v);
    ReadDoc(InArray(c, items, AtValue), es[0].doc);
    ThenDelimiter(InArray(c, items, AtValue), InArray(c, next, AtComma),
                  es[0].before, Text(es[0].doc), es[0].after, ch, ending);
    DenoteElemsFrom(items, es);
    if |es| == 1 {
      assert [ch] + ending == "]";
      EndArray(c, next);
    } else {
      CommaInArray(c, next, ending);
      ReadElems(c, next, es[1..]);
    }
  }

  lemma DenoteElemsFrom(items: seq<Json>, es: seq<Elem>)
    requires es != [] && ValidElems(es)
    ensures items + DenoteElems(es) == items + [Denote(es[0].doc)] + DenoteElems(es[1..])
    ensures |es| == 1 ==> items + DenoteElems(es) == items + [Denote(es[0].doc)]
  {
    hide Denote, ValidDoc;
    ConcatAssociates(items, [Denote(es[0].doc)], DenoteElems(es[1..]));
    ConcatNothing(items + [Denote(es[0].doc)]);
  }

  lemma ElementStates(c: Core, items: seq<Json>, v: Json)
    requires CanStart(c)
    ensures CanStart(InArray(c, items, AtValue)) && Between(InArray(c, items, AtValue))
    ensures Place(InArray(c, items, AtValue), v) == InArray(c, items + [v], AtComma)
    ensures Between(InArray(c, items + [v], AtComma))
  {
    hide Step, PrepareSlot, Slotted, Place, Feed, CanStart, InArray;
    InArrayIsBetween(c, items, AtValue);
    InArrayIsBetween(c, items + [v], AtComma);
    InArrayPlace(c, items, AtValue, v);
  }

  lemma EndArray(c: Core, items: seq<Json>)
    requires CanStart(c)
    ensures Good(InArray(c, items, AtComma))
    ensures Feed(InArray(c, items, AtComma), "]") == Place(c, Array(items))
  {
    hide PrepareSlot, Slotted, Place, Feed, CanStart, CloseContainer;
    InArrayIsBetween(c, items, AtComma);
    FeedOne(InArray(c, items, AtComma), ']');
    InArrayClose(c, items, AtComma);
  }

  lemma EndObject(c: Core, entries: seq<Entry>)
    requires CanStart(c) && DistinctKeys(entries)
    ensures Good(InObject(c, entries, None, AtComma))
    ensures Feed(InObject(c, entries, None, AtComma), "}") == Place(c, Object(entries))
  {
    hide PrepareSlot, Slotted, Place, Feed, CanStart, CloseContainer;
    InObjectIsBetween(c, entries, None, AtComma);
    FeedOne(InObject(c, entries, None, AtComma), '}');
    InObjectClose(c, entries, None, AtComma);
  }

  lemma CommaInArray(c: Core, items: seq<Json>, rest: string)
    requires CanStart(c)
    ensures Good(InArray(c, items, AtComma)) && Good(InArray(c, items, AtValue))
    ensures Feed(InArray(c, items, AtComma), "," + rest) == Feed(InArray(c, items, AtValue), rest)
  {
    InArrayIsBetween(c, items, AtComma);
    InArrayIsBetween(c, items, AtValue);
    CommaInFrame(InArray(c, items, AtComma), Slotted(c).stack, ArrayFrame(items, AtComma));
    FeedCons(InArray(c, items, AtComma), ',', rest);
  }

  lemma CommaInFrame(c: Core, base: seq<Frame>, f: Frame)
    requires Between(c) && c.stack == base + [f] && f.phase == AtComma
    ensures Step(c, ',') == c.(stack := base + [SetPhase(f, if f.ObjectFrame? then AtKey else AtValue)])
  {
    assert Below(c.stack) == base && Top(c.stack) == f;
  }

  lemma CommaInObject(c: Core, entries: seq<Entry>, rest: string)
    requires CanStart(c) && DistinctKeys(entries)
    ensures Good(InObject(c, entries, None, AtComma)) && Good(InObject(c, entries, None, AtKey))
    ensures Feed(InObject(c, entries, None, AtComma), "," + rest) == Feed(InObject(c, entries, None, AtKey), rest)
  {
    InObjectIsBetween(c, entries, None, AtComma);
    InObjectIsBetween(c, entries, None, AtKey);
    CommaInFrame(InObject(c, entries, None, AtComma), Slotted(c).stack, ObjectFrame(entries, None, AtComma));
    FeedCons(InObject(c, entries, None, AtComma), ',', rest);
  }

  lemma {:induction false} ReadMembers(c: Core, entries: seq<Entry>, ms: seq<Member>)
    requires CanStart(c) && ms != [] && ValidMembers(ms) && DistinctKeys(entries)
    ensures Good(InObject(c, entries, None, AtKey))
    ensures Feed(InObject(c, entries, None, AtKey), MembersText(ms)) == Place(c, Object(DenoteMembers(entries, ms)))
    decreases ms, 0
  {
    hide Step, PrepareSlot, Slotted, Place, Feed, CanStart, InObject, Good, Insert, KeyText, Ready, Text, Denote,
         ValidDoc;
    var m := ms[0];
    var k := ItemsValue(m.key);
    var next := Insert(entries, k, Denote(m.doc));
    var c0 := InObject(c, entries, None, AtKey);
    var c1 := InObject(c, entries, Some(k), AtValue);
    var ending := if |ms| == 1 then "" else MembersText(ms[1..]);
    var ch := if |ms| == 1 then '}' else ',';
    InsertDistinct(entries, k, Denote(m.doc));
    MemberStates(c, entries, k, Denote(m.doc));
    ReadDoc(c1, m.doc);
    ThenDelimiter(c1, InObject(c, next, None, AtComma), "", Text(m.doc), m.after, ch, ending);
    ReadKey(c, entries, AtKey, m);
    KeyThen(c0, c1, m, Text(m.doc) + (m.after + ([ch] + ending)));
    if |ms| == 1 {
      assert [ch] + ending == "}" && m.after + "}" == m.after + ([ch] + ending);
      EndObject(c, next);
    } else {
      CommaInObject(c, next, ending);
      ReadMembers(c, next, ms[1..]);
    }
  }

  lemma MemberStates(c: Core, entries: seq<Entry>, k: string, v: Json)
    requires CanStart(c) && DistinctKeys(entries)
    ensures Between(InObject(c, entries, None, AtKey))
    ensures CanStart(InObject(c, entries, Some(k), AtValue)) && Between(InObject(c, entries, Some(k), AtValue))
    ensures Place(InObject(c, entries, Some(k), AtValue), v) == InObject(c, Insert(entries, k, v), None, AtComma)
    ensures Between(InObject(c, Insert(entries, k, v), None, AtComma))
  {
    hide Step, PrepareSlot, Slotted, Place, Feed, CanStart, InObject, Insert;
    InsertDistinct(entries, k, v);
    InObjectIsBetween(c, entries, None, AtKey);
    InObjectIsBetween(c, entries, Some(k), AtValue);
    InObjectIsBetween(c, Insert(entries, k, v), None, AtComma);
    InObjectPlace(c, entries, k, AtValue, v);
  }

  lemma KeyThen(c0: Core, c1: Core, m: Member, tail: string)
    requires Between(c0) && IsBlank(m.before) && Good(c1) && Feed(c0, KeyText(m)) == c1
    ensures Feed(c0, m.before + (KeyText(m) + tail)) == Feed(c1, "" + tail)
  {
    hide Feed, Step, Good;
    FeedBlank(c0, m.before);
    FeedConcat(c0, m.before, KeyText(m) + tail);
    FeedConcat(c0, KeyText(m), tail);
    assert "" + tail == tail;
  }

  // ---------------------------------------------------------------------------
  // Whole texts
  // ---------------------------------------------------------------------------

  /** Every text whose outermost value is a string, an array or an object,
      with blanks around it, ends the parser with the value it denotes. */
  lemma ReadsEveryText(before: string, d: Doc, after: string)
    requires IsBlank(before) && ValidDoc(d) && !d.Scalar?
    ensures Feed(FRESH, before + (Text(d) + after)) == FRESH.(root := Some(Denote(d)), done := true)
  {
    FeedBlank(FRESH, before);
    FeedConcat(FRESH, before, Text(d) + after);
    ReadDoc(FRESH, d);
    FeedConcat(FRESH, Text(d), after);
  }

  /** In particular every text of the grammar does, unless one of its numbers is
      beyond a double. */
  lemma ReadsGrammar(before: string, d: Doc, after: string)
    requires IsBlank(before) && GrammarDoc(d) && !d.Scalar?
    ensures ValidDoc(d)
    ensures Feed(FRESH, before + (Text(d) + after)) == FRESH.(root := Some(Denote(d)), done := true)
  {
    GrammarIsValid(d);
    ReadsEveryText(before, d, after);
  }

  /** A number, true, false or null at the outermost level ends at the first delimiter. */
  lemma ReadsEveryScalar(before: string, d: Doc, delimiter: char, after: string)
    requires IsBlank(before) && ValidDoc(d) && d.Scalar? && IsDelimiter(delimiter)
    ensures Feed(FRESH, before + (Text(d) + ([delimiter] + after))) == FRESH.(root := Some(Denote(d)), done := true)
  {
    FeedBlank(FRESH, before);
    FeedConcat(FRESH, before, Text(d) + ([delimiter] + after));
    ReadDoc(FRESH, d);
    FeedConcat(FRESH, Text(d), [delimiter] + after);
    ReadyThen(Feed(FRESH, Text(d)), Place(FRESH, Denote(d)), delimiter, after);
  }

  function Join(pieces: seq<string>): string {
    if pieces == [] then "" else pieces[0] + Join(pieces[1..])
  }

  function FeedPieces(c: Core, pieces: seq<string>): Core
    requires Good(c)
    decreases |pieces|
  {
    if pieces == [] then c else FeedPieces(Feed(c, pieces[0]), pieces[1..])
  }

  lemma {:induction false} FeedPiecesIsFeed(c: Core, pieces: seq<string>)
    requires Good(c)
    ensures FeedPieces(c, pieces) == Feed(c, Join(pieces))
    decreases |pieces|
  {
    if pieces != [] {
      FeedPiecesIsFeed(Feed(c, pieces[0]), pieces[1..]);
      FeedConcat(c, pieces[0], Join(pieces[1..]));
    }
  }

  /** Printer and parser round trip: the serialization of a string, an array or
      an object, cut into pieces anywhere, is read back to the same value. */
  lemma RoundTrip(v: Json, pieces: seq<string>)
    requires Printable(v) && (v.String? || v.Array? || v.Object?)
    requires Join(pieces) == Text(Print(v))
    ensures FeedPieces(FRESH, pieces) == FRESH.(root := Some(v), done := true)
  {
    PrintDenotes(v);
    FeedPiecesIsFeed(FRESH, pieces);
    ReadsEveryText("", Print(v), "");
    assert "" + (Text(Print(v)) + "") == Text(Print(v));
  }
}
