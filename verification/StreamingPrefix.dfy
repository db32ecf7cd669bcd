/** What the parser shows in the middle of a text: a snapshot of the open
    containers, and how it compares with the value of the whole text. */
module StreamingPrefix {
  import opened Options
  import opened Json
  import opened Numbers
  import opened StreamingCore
  import opened JsonText
  import opened Seqs
  import opened StreamingRead

  // ---------------------------------------------------------------------------
  // Snapshots
  // ---------------------------------------------------------------------------

  /** The unfinished string or scalar, as a value. */
  function Leaf(c: Core): Option<Json> {
    if c.open.Some? then
      if c.open.value.target == KeyTarget then None else Some(String(c.open.value.text))
    else if c.scalarTarget.Some? then PendingScalar(c.scalar)
    else None
  }

  /** An open container closed early around its unfinished last member. */
  function CloseWith(f: Frame, v: Option<Json>): Json {
    match f
    case ObjectFrame(entries, key, _) =>
      Object(if v.Some? && key.Some? then Insert(entries, key.value, v.value) else entries)
    case ArrayFrame(items, _) => Array(if v.Some? then items + [v.value] else items)
  }

  function Fold(stack: seq<Frame>, v: Option<Json>): Option<Json> {
    if stack == [] then v else Fold(Below(stack), Some(CloseWith(Top(stack), v)))
  }

  /** The value shown for the text read so far. */
  function Snapshot(c: Core): Option<Json> {
    if c.done then c.root else Fold(c.stack, Leaf(c))
  }

  lemma {:induction false} FoldConcat(a: seq<Frame>, b: seq<Frame>, v: Option<Json>)
    ensures Fold(a + b, v) == Fold(a, Fold(b, v))
    decreases |b|
  {
    if b == [] {
      assert a + b == a;
    } else {
      assert Below(a + b) == a + Below(b) && Top(a + b) == Top(b);
      FoldConcat(a, Below(b), Some(CloseWith(Top(b), v)));
    }
  }

  lemma FoldOne(f: Frame, v: Option<Json>)
    ensures Fold([f], v) == Some(CloseWith(f, v))
  {
    assert Below([f]) == [] && Top([f]) == f;
  }

  // ---------------------------------------------------------------------------
  // What part of a text shows
  // ---------------------------------------------------------------------------

  /** The characters of a string that are complete after `k` characters of its body. */
  function ItemsSoFar(items: seq<StrItem>, k: nat): string
    requires ValidItems(items)
  {
    if items == [] || k < |ItemText(items[0])| then ""
    else [ItemChar(items[0])] + ItemsSoFar(items[1..], k - |ItemText(items[0])|)
  }

  /** A value is over once its last character was read; only a number or a literal
      needs the next one to end. */
  predicate Over(d: Doc, k: int) { if d.Scalar? then k > |Text(d)| else k >= |Text(d)| }

  /** What is to be shown after `k` characters of a text: closed values as they
      are, the open string as far as its characters are complete, the open number
      or literal by the reader of pending scalars, nothing of what comes later. */
  function Shown(d: Doc, k: nat): Option<Json>
    requires ValidDoc(d) && k <= |Text(d)|
    decreases d
  {
    if k == 0 then None
    else
      match d
      case Str(items) => Some(String(ItemsSoFar(items, k - 1)))
      case Scalar(token) => PendingScalar(token[..k])
      case Arr(elems, _) => Some(Array(ShownElems(elems, k - 1)))
      case Obj(members, _) => Some(Object(ShownMembers([], members, k - 1)))
  }

  function ShownElems(es: seq<Elem>, k: nat): seq<Json>
    requires ValidElems(es)
    decreases es
  {
    if es == [] || k <= |es[0].before| then []
    else
      var e := es[0];
      var read := k - |e.before|;
      if !Over(e.doc, read) then Maybe(Shown(e.doc, read))
      else if read <= |Text(e.doc)| + |e.after| then [Denote(e.doc)]
      else [Denote(e.doc)] + ShownElems(es[1..], read - |Text(e.doc)| - |e.after| - 1)
  }

  function Maybe(v: Option<Json>): seq<Json> { if v.Some? then [v.value] else [] }

  function ShownMembers(entries: seq<Entry>, ms: seq<Member>, k: nat): seq<Entry>
    requires ValidMembers(ms)
    decreases ms
  {
    if ms == [] || k <= |ms[0].before| + |KeyText(ms[0])| then entries
    else
      var m := ms[0];
      var key := ItemsValue(m.key);
      var read := k - |m.before| - |KeyText(m)|;
      if !Over(m.doc, read) then MaybeInsert(entries, key, Shown(m.doc, read))
      else if read <= |Text(m.doc)| + |m.after| then Insert(entries, key, Denote(m.doc))
      else ShownMembers(Insert(entries, key, Denote(m.doc)), ms[1..], read - |Text(m.doc)| - |m.after| - 1)
  }

  function MaybeInsert(entries: seq<Entry>, key: string, v: Option<Json>): seq<Entry> {
    if v.Some? then Insert(entries, key, v.value) else entries
  }

  // ---------------------------------------------------------------------------
  // Cuts
  // ---------------------------------------------------------------------------

  lemma CutInFirst(a: string, b: string, k: nat)
    requires k <= |a|
    ensures (a + b)[..k] == a[..k]
  {
  }

  lemma CutInSecond(a: string, b: string, k: nat)
    requires |a| <= k <= |a| + |b|
    ensures (a + b)[..k] == a + b[..k - |a|]
  {
  }

  /** The state in the middle of a value that was started in slot `c` and shows `p`. */
  ghost predicate Partway(s: Core, c: Core, p: Option<Json>) {
    Good(s) && !s.done && |c.stack| <= |s.stack| && s.stack[..|c.stack|] == c.stack
    && Fold(s.stack[|c.stack|..], Leaf(s)) == p
  }

  // ---------------------------------------------------------------------------
  // Cut strings
  // ---------------------------------------------------------------------------

  /** Part of an item changes nothing but the pending escape and surrogate. */
  ghost predicate SameText(s: Core, c: Core, o: OpenString) {
    Good(s) && s.open.Some? && s == c.(open := s.open)
    && s.open.value.target == o.target && s.open.value.text == o.text
  }

  lemma PartOfUnicode(c: Core, o: OpenString, h: string, k: nat)
    requires Good(c) && c.open == Some(o) && o.escape == "" && IsHex4(h) && k < 6
    ensures SameText(Feed(c, ("\\u" + h)[..k]), c, o)
  {
    hide Feed, Step, StringChar, EndUnicodeEscape, Hex4;
    var t := "\\u" + h;
    if k == 0 {
      assert t[..k] == "";
      FeedNothing(c);
    } else if k == 1 {
      assert t[..k] == ['\\'];
      FeedBackslash(c, o);
    } else {
      EscapeU(c, o);
      assert t[..2] == "\\u";
      if k >= 3 {
        HexStep(c, o, "", h[0]);
        FeedConcat(c, "\\u", [h[0]]);
        assert t[..3] == "\\u" + [h[0]] && "" + [h[0]] == h[..1];
      }
      if k >= 4 {
        HexStep(c, o, h[..1], h[1]);
        FeedConcat(c, t[..3], [h[1]]);
        assert t[..4] == t[..3] + [h[1]] && h[..1] + [h[1]] == h[..2];
      }
      if k == 5 {
        HexStep(c, o, h[..2], h[2]);
        FeedConcat(c, t[..4], [h[2]]);
        assert t[..5] == t[..4] + [h[2]];
      }
    }
  }

  lemma FeedBackslash(c: Core, o: OpenString)
    requires Good(c) && c.open == Some(o) && o.escape == ""
    ensures Feed(c, ['\\']) == c.(open := Some(o.(escape := "\\")))
  {
    FeedOne(c, '\\');
  }

  lemma PartOfItem(c: Core, o: OpenString, it: StrItem, k: nat)
    requires Good(c) && c.open == Some(o) && o.escape == "" && o.high.None? && ValidItem(it) && k < |ItemText(it)|
    ensures SameText(Feed(c, ItemText(it)[..k]), c, o)
  {
    hide Feed, Step, StringChar, EndUnicodeEscape, Hex4;
    match it
    case Raw(ch) =>
      assert ItemText(it)[..k] == "";
      FeedNothing(c);
    case Short(e) =>
      if k == 0 {
        assert ItemText(it)[..k] == "";
        FeedNothing(c);
      } else {
        assert ItemText(it)[..k] == ['\\'];
        FeedBackslash(c, o);
      }
    case Unicode(h) => PartOfUnicode(c, o, h, k);
    case Pair(h, l) =>
      if k < 6 {
        CutInFirst("\\u" + h, "\\u" + l, k);
        PartOfUnicode(c, o, h, k);
      } else {
        CutInSecond("\\u" + h, "\\u" + l, k);
        FirstOfPair(c, o, h);
        FeedConcat(c, "\\u" + h, ("\\u" + l)[..k - 6]);
        var o1 := o.(high := Some(Hex4(h)));
        PartOfUnicode(c.(open := Some(o1)), o1, l, k - 6);
      }
  }

  lemma FirstOfPair(c: Core, o: OpenString, h: string)
    requires Good(c) && c.open == Some(o) && o.escape == "" && o.high.None? && IsHex4(h) && IsHigh(Hex4(h))
    ensures Good(c.(open := Some(o.(high := Some(Hex4(h))))))
    ensures Feed(c, "\\u" + h) == c.(open := Some(o.(high := Some(Hex4(h)))))
  {
    FeedUnicodeEscape(c, o, h);
  }

  lemma {:induction false} PartOfItems(c: Core, target: Target, text: string, items: seq<StrItem>, k: nat)
    requires Good(c) && InString(c, target, text) && ValidItems(items) && k <= |ItemsText(items)|
    ensures var s := Feed(c, ItemsText(items)[..k]);
      Good(s) && s.open.Some? && s == c.(open := s.open)
      && s.open.value.target == target && s.open.value.text == text + ItemsSoFar(items, k)
    decreases |items|
  {
    hide Feed, Step, Good, ItemText, ItemChar, Combine, ValidItem;
    if items == [] {
      FeedNothing(c);
      ConcatNothing(text);
    } else {
      var first := ItemText(items[0]);
      if k < |first| {
        ConcatNothing(text);
        CutInFirst(first, ItemsText(items[1..]), k);
        PartOfItem(c, c.open.value, items[0], k);
      } else {
        CutInSecond(first, ItemsText(items[1..]), k);
        var next := text + [ItemChar(items[0])];
        ConcatAssociates(text, [ItemChar(items[0])], ItemsSoFar(items[1..], k - |first|));
        FeedItem(c, target, text, items[0]);
        WithTextIsGood(c, target, text, next);
        PartOfItems(WithText(c, target, next), target, next, items[1..], k - |first|);
        FeedConcat(c, first, ItemsText(items[1..])[..k - |first|]);
      }
    }
  }

  /** Part of a string after its opening quote, in a value slot. */
  lemma PartOfString(c: Core, items: seq<StrItem>, k: nat)
    requires CanStart(c) && Slotted(c) == c && ValidItems(items) && k < |Quoted(items)|
    ensures Partway(Feed(c, Quoted(items)[..k]), c, Shown(Str(items), k))
  {
    if k == 0 {
      assert Quoted(items)[..k] == "";
      FeedNothing(c);
    } else {
      OpenStringValue(c);
      var target := PrepareSlot(c).1.value;
      assert Quoted(items)[..k] == ['"'] + (ItemsText(items) + "\"")[..k - 1];
      CutInFirst(ItemsText(items), "\"", k - 1);
      FeedCons(c, '"', ItemsText(items)[..k - 1]);
      PartOfItems(Step(c, '"'), target, "", items, k - 1);
      assert "" + ItemsSoFar(items, k - 1) == ItemsSoFar(items, k - 1);
      var s := Feed(c, Quoted(items)[..k]);
      assert s.stack == c.stack && s.stack[|c.stack|..] == [];
    }
  }

  // ---------------------------------------------------------------------------
  // Cut scalars
  // ---------------------------------------------------------------------------

  /** The number shown while one is being typed: the reading of what is typed,
      without an exponent that has only begun. */
  function NumberSoFar(typed: string): Option<Json> {
    if Bytes(typed) > 64 then None
    else
      match ParseNumber(TrimEnd(typed))
      case Some(n) => Some(Number(n))
      case None => None
  }

  lemma LiteralBytes()
    ensures Bytes("true") <= 64 && Bytes("false") <= 64 && Bytes("null") <= 64
  {
  }

  lemma {:induction false} PrefixBytes(a: string, b: string)
    requires a <= b
    ensures Bytes(a) <= Bytes(b)
  {
    assert b == a + b[|a|..];
    BytesConcat(a, b[|a|..]);
  }

  /** A number never ends with an exponent that has only begun. */
  lemma NumberEndsWhole(s: string)
    requires ParseNumber(s).Some?
    ensures TrimEnd(s) == s
  {
    hide ParseNumber;
    NumberEnds(s);
  }

  lemma NumberEnds(s: string)
    requires ParseNumber(s).Some?
    ensures s != [] && (IsDigit(s[|s| - 1]) || s[|s| - 1] == '.')
  {
    hide ReadLiteral, ParseInteger, IsFiniteDouble, Decimal;
    if ParseInteger(s).Some? {
      IntegerEnds(s);
    } else {
      LiteralEndsWhole(s);
    }
  }

  lemma IntegerEnds(s: string)
    requires ParseInteger(s).Some?
    ensures s != [] && IsDigit(s[|s| - 1])
  {
    hide Decimal;
    var digits := StripSign(s);
    assert digits[|digits| - 1] == s[|s| - 1];
  }

  lemma LiteralEndsWhole(s: string)
    requires ReadLiteral(s).wellFormed
    ensures s != [] && (IsDigit(s[|s| - 1]) || s[|s| - 1] == '.')
  {
    var t := StripSign(s);
    var (whole, afterWhole) := CutDigits(t);
    if afterWhole == [] {
      assert t == whole;
    } else if afterWhole[0] == '.' {
      var (fraction, rest) := CutDigits(afterWhole[1..]);
      assert t == whole + ['.'] + fraction + rest;
      if rest != [] {
        ExponentEnds(rest);
      }
    } else {
      ExponentEnds(afterWhole);
    }
  }

  lemma ExponentEnds(e: string)
    requires IsExponent(e) && e != []
    ensures IsDigit(e[|e| - 1])
  {
    var digits := StripSign(e[1..]);
    assert e[|e| - 1] == digits[|digits| - 1];
  }

  /** A scalar still being typed: any beginning of a literal is shown as the
      literal, any beginning of a number as the number typed so far. */
  lemma PendingShows(token: string, k: nat)
    requires CompleteScalar(token).Some? && 1 <= k <= |token|
    ensures IsLiteral(token) ==> PendingScalar(token[..k]) == CompleteScalar(token)
    ensures !IsLiteral(token) ==> PendingScalar(token[..k]) == NumberSoFar(token[..k])
  {
    hide ParseNumber, TrimEnd, Bytes;
    var p := token[..k];
    assert p[0] == token[0] && p <= token;
    PrefixBytes(p, token);
    LiteralBytes();
    if !IsLiteral(token) {
      NumberToken(token);
      if ParseNumber(p).Some? {
        NumberEndsWhole(p);
      } else if TrimEnd(p) == [] {
        NothingIsNoNumber();
      }
    }
  }

  lemma NothingIsNoNumber()
    ensures ParseNumber("").None?
  {
  }

  lemma PartOfScalar(c: Core, token: string, k: nat)
    requires CanStart(c) && Slotted(c) == c && CompleteScalar(token).Some? && k <= |token|
    ensures Partway(Feed(c, token[..k]), c, Shown(Scalar(token), k))
  {
    hide CompleteScalar, PendingScalar;
    if k == 0 {
      assert token[..k] == "";
      FeedNothing(c);
    } else {
      ScalarTokenChars(token);
      FeedToken(c, token[..k]);
      ReadingIsGood(c, token[..k]);
      var s := Reading(c, token[..k]);
      assert s.stack == c.stack && s.stack[|c.stack|..] == [];
    }
  }

  // ---------------------------------------------------------------------------
  // Cut containers
  // ---------------------------------------------------------------------------

  lemma FoldAbove(stack: seq<Frame>, base: seq<Frame>, f: Frame, leaf: Option<Json>)
    requires |stack| > |base| && stack[..|base| + 1] == base + [f]
    ensures stack[..|base|] == base
    ensures Fold(stack[|base|..], leaf) == Some(CloseWith(f, Fold(stack[|base| + 1..], leaf)))
  {
    var upper := stack[|base| + 1..];
    assert stack[..|base|] == stack[..|base| + 1][..|base|];
    assert stack[|base|..] == [f] + upper;
    FoldConcat([f], upper, leaf);
    FoldOne(f, Fold(upper, leaf));
  }

  /** Progress inside an element is progress inside the array. */
  lemma PartwayInArray(s: Core, c: Core, items: seq<Json>, p: Option<Json>)
    requires CanStart(c) && Slotted(c) == c && Partway(s, InArray(c, items, AtValue), p)
    ensures Partway(s, c, Some(Array(items + Maybe(p))))
  {
    hide Good, Fold, Leaf, CanStart, Slotted;
    FoldAbove(s.stack, c.stack, ArrayFrame(items, AtValue), Leaf(s));
    ConcatNothing(items);
  }

  lemma PartwayInObject(s: Core, c: Core, entries: seq<Entry>, k: string, p: Option<Json>)
    requires CanStart(c) && Slotted(c) == c && Partway(s, InObject(c, entries, Some(k), AtValue), p)
    ensures Partway(s, c, Some(Object(MaybeInsert(entries, k, p))))
  {
    hide Good, Fold, Leaf, CanStart, Slotted;
    FoldAbove(s.stack, c.stack, ObjectFrame(entries, Some(k), AtValue), Leaf(s));
  }

  /** Between two elements. */
  lemma BetweenElements(c: Core, items: seq<Json>, phase: Phase)
    requires CanStart(c) && Slotted(c) == c
    ensures Partway(InArray(c, items, phase), c, Some(Array(items)))
  {
    InArrayIsBetween(c, items, phase);
    var s := InArray(c, items, phase);
    assert s.stack[|c.stack|..] == [ArrayFrame(items, phase)];
    FoldOne(ArrayFrame(items, phase), None);
  }

  /** Between two members, in a key, or between a key and its value. */
  lemma BetweenMembers(s: Core, c: Core, f: Frame)
    requires Good(s) && !s.done && Leaf(s) == None && f.ObjectFrame?
    requires s.stack == c.stack + [f]
    ensures Partway(s, c, Some(Object(f.entries)))
  {
    assert s.stack[|c.stack|..] == [f];
    FoldOne(f, None);
  }

  lemma PartOfBlank(c: Core, blank: string, k: nat)
    requires Between(c) && IsBlank(blank) && k <= |blank|
    ensures Feed(c, blank[..k]) == c
  {
    FeedBlank(c, blank[..k]);
  }

  /** After a value: in the blanks, or past the delimiter. */
  lemma PartAfterValue(x: Core, placed: Core, after: string, ch: char, ending: string, k: nat)
    requires Ready(x, placed) && Between(placed) && IsBlank(after) && IsDelimiter(ch)
    requires 1 <= k <= |after| + 1 + |ending|
    ensures k <= |after| ==> Feed(x, (after + ([ch] + ending))[..k]) == placed
    ensures k > |after| ==>
      Feed(x, (after + ([ch] + ending))[..k]) == Feed(placed, [ch] + ending[..k - |after| - 1])
  {
    hide Feed, Step, Good;
    if k <= |after| {
      CutInFirst(after, [ch] + ending, k);
      var cut := after[..k];
      assert cut == [cut[0]] + cut[1..];
      ReadyThen(x, placed, cut[0], cut[1..]);
      PartOfBlank(placed, after, k);
    } else {
      CutInSecond(after, [ch] + ending, k);
      CutInSecond([ch], ending, k - |after|);
      ReadyAfterBlank(x, placed, after, ch, ending[..k - |after| - 1]);
    }
  }

  /** A cut of `before text after ch ending`, by where it falls. */
  lemma CutFive(before: string, text: string, after: string, ch: char, ending: string, k: nat)
    requires k <= |before| + |text| + |after| + 1 + |ending|
    ensures var whole := before + (text + (after + ([ch] + ending)));
      && (k <= |before| ==> whole[..k] == before[..k])
      && (|before| <= k <= |before| + |text| ==> whole[..k] == before + text[..k - |before|])
      && (|before| + |text| <= k ==>
            whole[..k] == before + (text + (after + ([ch] + ending))[..k - |before| - |text|]))
  {
    var tail := after + ([ch] + ending);
    if k <= |before| {
      CutInFirst(before, text + tail, k);
    }
    if |before| <= k {
      CutInSecond(before, text + tail, k);
      if k <= |before| + |text| {
        CutInFirst(text, tail, k - |before|);
      }
      if |before| + |text| <= k {
        CutInSecond(text, tail, k - |before|);
      }
    }
  }

  /** In the middle of a text the parser stands on the containers around it and
      shows exactly what that part of the text shows. */
  lemma {:induction false} PartOfDoc(c: Core, d: Doc, k: nat)
    requires CanStart(c) && Slotted(c) == c && ValidDoc(d) && k <= |Text(d)| && !Over(d, k)
    ensures Partway(Feed(c, Text(d)[..k]), c, Shown(d, k))
    decreases d, 1
  {
    hide Feed, Step, Place, PrepareSlot, CanStart, Good, CompleteScalar, Partway, InArray, InObject, ShownElems,
         ShownMembers, PendingScalar;
    match d
    case Str(items) => PartOfString(c, items, k);
    case Scalar(token) => PartOfScalar(c, token, k);
    case Arr(elems, blank) =>
      if k == 0 {
        assert Text(d)[..k] == "";
        NothingRead(c);
      } else {
        var rest := if elems == [] then blank + "]" else ElemsText(elems);
        CutInSecond("[", rest, k);
        OpenArray(c, rest[..k - 1]);
        if elems == [] {
          CutInFirst(blank, "]", k - 1);
          InArrayIsBetween(c, [], AtValue);
          PartOfBlank(InArray(c, [], AtValue), blank, k - 1);
          BetweenElements(c, [], AtValue);
          NothingToShow(k - 1);
        } else {
          PartOfElems(c, [], elems, k - 1);
          ConcatNothing(ShownElems(elems, k - 1));
        }
      }
    case Obj(members, blank) =>
      if k == 0 {
        assert Text(d)[..k] == "";
        NothingRead(c);
      } else {
        var rest := if members == [] then blank + "}" else MembersText(members);
        CutInSecond("{", rest, k);
        OpenObject(c, rest[..k - 1]);
        EmptyIsDistinct();
        if members == [] {
          CutInFirst(blank, "}", k - 1);
          PartOfEmptyObject(c, blank, k - 1);
          NothingToShow(k - 1);
        } else {
          PartOfMembers(c, [], members, k - 1);
        }
      }
  }

  lemma NothingToShow(k: nat)
    ensures ShownElems([], k) == [] && ShownMembers([], [], k) == []
  {
  }

  lemma NothingRead(c: Core)
    requires CanStart(c)
    ensures Partway(Feed(c, ""), c, None)
  {
    FeedNothing(c);
    assert c.stack[|c.stack|..] == [];
  }

  lemma PartOfEmptyObject(c: Core, blank: string, k: nat)
    requires CanStart(c) && Slotted(c) == c && IsBlank(blank) && k <= |blank|
    ensures Good(InObject(c, [], None, AtKey))
    ensures Partway(Feed(InObject(c, [], None, AtKey), blank[..k]), c, Some(Object([])))
  {
    var s := InObject(c, [], None, AtKey);
    InObjectIsBetween(c, [], None, AtKey);
    PartOfBlank(s, blank, k);
    BetweenMembers(s, c, ObjectFrame([], None, AtKey));
  }

  lemma {:induction false} PartOfElems(c: Core, items: seq<Json>, es: seq<Elem>, k: nat)
    requires CanStart(c) && Slotted(c) == c && es != [] && ValidElems(es) && k < |ElemsText(es)|
    ensures Good(InArray(c, items, AtValue))
    ensures Partway(Feed(InArray(c, items, AtValue), ElemsText(es)[..k]), c, Some(Array(items + ShownElems(es, k))))
    decreases es, 0
  {
    hide Step, PrepareSlot, Slotted, Place, Feed, CanStart, InArray, Good, Ready, Text, Denote, ValidDoc, Shown,
         Partway;
    var e := es[0];
    var v := Denote(e.doc);
    var ending := if |es| == 1 then "" else ElemsText(es[1..]);
    var ch := if |es| == 1 then ']' else ',';
    var c0 := InArray(c, items, AtValue);
    var text := Text(e.doc);
    ElementStates(c, items, v);
    CutFive(e.before, text, e.after, ch, ending, k);
    assert ElemsText(es) == e.before + (text + (e.after + ([ch] + ending)));
    if k <= |e.before| {
      PartOfBlank(c0, e.before, k);
      BetweenElements(c, items, AtValue);
      ConcatNothing(items);
    } else if !Over(e.doc, k - |e.before|) {
      FeedBlank(c0, e.before);
      FeedConcat(c0, e.before, text[..k - |e.before|]);
      MarkedArray(c, items);
      PartOfDoc(c0, e.doc, k - |e.before|);
      PartwayInArray(Feed(c0, text[..k - |e.before|]), c, items, Shown(e.doc, k - |e.before|));
    } else {
      PartAfterElement(c, items, es, k, ch, ending);
    }
  }

  lemma MarkedArray(c: Core, items: seq<Json>)
    requires CanStart(c)
    ensures Slotted(InArray(c, items, AtValue)) == InArray(c, items, AtValue)
  {
    InArrayIsBetween(c, items, AtValue);
  }

  lemma {:induction false} PartAfterElement(c: Core, items: seq<Json>, es: seq<Elem>, k: nat, ch: char, ending: string)
    requires CanStart(c) && Slotted(c) == c && es != [] && ValidElems(es) && k < |ElemsText(es)|
    requires ending == if |es| == 1 then "" else ElemsText(es[1..])
    requires ch == if |es| == 1 then ']' else ','
    requires k > |es[0].before| && Over(es[0].doc, k - |es[0].before|)
    ensures Good(InArray(c, items, AtValue))
    ensures Partway(Feed(InArray(c, items, AtValue), ElemsText(es)[..k]), c, Some(Array(items + ShownElems(es, k))))
    decreases es[1..], 2
  {
    hide Step, PrepareSlot, Slotted, Place, Feed, CanStart, InArray, Good, Ready, Text, Denote, ValidDoc, Shown,
         Partway;
    var e := es[0];
    var v := Denote(e.doc);
    var next := items + [v];
    var c0 := InArray(c, items, AtValue);
    var text := Text(e.doc);
    var tail := e.after + ([ch] + ending);
    var j := k - |e.before| - |text|;
    ElementStates(c, items, v);
    CutFive(e.before, text, e.after, ch, ending, k);
    assert ElemsText(es) == e.before + (text + tail);
    ReadDoc(c0, e.doc);
    FeedBlank(c0, e.before);
    FeedConcat(c0, e.before, text + tail[..j]);
    FeedConcat(c0, text, tail[..j]);
    BetweenElements(c, next, AtComma);
    if j == 0 {
      assert tail[..j] == "";
      FeedNothing(InArray(c, next, AtComma));
    } else {
      PartAfterValue(Feed(c0, text), InArray(c, next, AtComma), e.after, ch, ending, j);
      if j > |e.after| {
        CommaInArray(c, next, ending[..j - |e.after| - 1]);
        PartOfElems(c, next, es[1..], j - |e.after| - 1);
        ConcatAssociates(items, [v], ShownElems(es[1..], j - |e.after| - 1));
      }
    }
  }

  // ---------------------------------------------------------------------------
  // Cut keys and members
  // ---------------------------------------------------------------------------

  /** In the middle of `"key" beforeColon : beforeValue`. */
  ghost predicate InKey(s: Core, c: Core, entries: seq<Entry>) {
    Good(s) && !s.done && Leaf(s) == None
    && exists key, phase :: s.stack == c.stack + [ObjectFrame(entries, key, phase)]
  }

  lemma BetweenIsInKey(c: Core, entries: seq<Entry>, key: Option<string>, phase: Phase)
    requires CanStart(c) && Slotted(c) == c && GoodFrame(ObjectFrame(entries, key, phase))
    ensures InKey(InObject(c, entries, key, phase), c, entries)
  {
    InObjectIsBetween(c, entries, key, phase);
    assert InObject(c, entries, key, phase).stack == c.stack + [ObjectFrame(entries, key, phase)];
  }

  lemma PartOfQuotedKey(c: Core, entries: seq<Entry>, key: seq<StrItem>, k: nat)
    requires CanStart(c) && Slotted(c) == c && DistinctKeys(entries) && ValidItems(key) && k < |Quoted(key)|
    ensures Good(InObject(c, entries, None, AtKey))
    ensures InKey(Feed(InObject(c, entries, None, AtKey), Quoted(key)[..k]), c, entries)
  {
    var c0 := InObject(c, entries, None, AtKey);
    OpenKey(c, entries, AtKey);
    if k == 0 {
      assert Quoted(key)[..k] == "";
      FeedNothing(c0);
      BetweenIsInKey(c, entries, None, AtKey);
    } else {
      assert Quoted(key)[..k] == ['"'] + (ItemsText(key) + "\"")[..k - 1];
      CutInFirst(ItemsText(key), "\"", k - 1);
      FeedCons(c0, '"', ItemsText(key)[..k - 1]);
      PartOfItems(Step(c0, '"'), KeyTarget, "", key, k - 1);
      var s := Feed(c0, Quoted(key)[..k]);
      assert s.stack == c.stack + [ObjectFrame(entries, None, AtKey)];
    }
  }

  lemma PartOfKey(c: Core, entries: seq<Entry>, m: Member, k: nat)
    requires CanStart(c) && Slotted(c) == c && DistinctKeys(entries)
    requires ValidItems(m.key) && IsBlank(m.beforeColon) && IsBlank(m.beforeValue) && k <= |KeyText(m)|
    ensures Good(InObject(c, entries, None, AtKey))
    ensures InKey(Feed(InObject(c, entries, None, AtKey), KeyText(m)[..k]), c, entries)
  {
    hide Feed, Step, Good, CanStart, Slotted, InObject, InKey, Quoted;
    var name := ItemsValue(m.key);
    var colon := InObject(c, entries, Some(name), AtColon);
    var value := InObject(c, entries, Some(name), AtValue);
    var tail := m.beforeColon + (":" + m.beforeValue);
    ReadQuotedKey(c, entries, AtKey, m.key);
    InObjectIsBetween(c, entries, Some(name), AtColon);
    BetweenIsInKey(c, entries, Some(name), AtColon);
    if k < |Quoted(m.key)| {
      CutInFirst(Quoted(m.key), tail, k);
      PartOfQuotedKey(c, entries, m.key, k);
    } else {
      CutInSecond(Quoted(m.key), tail, k);
      var j := k - |Quoted(m.key)|;
      FeedConcat(InObject(c, entries, None, AtKey), Quoted(m.key), tail[..j]);
      if j <= |m.beforeColon| {
        CutInFirst(m.beforeColon, ":" + m.beforeValue, j);
        PartOfBlank(colon, m.beforeColon, j);
      } else {
        CutInSecond(m.beforeColon, ":" + m.beforeValue, j);
        CutInSecond(":", m.beforeValue, j - |m.beforeColon|);
        var i := j - |m.beforeColon| - 1;
        FeedBlank(colon, m.beforeColon);
        FeedConcat(colon, m.beforeColon, ":" + m.beforeValue[..i]);
        FeedColon(c, entries, name, m.beforeValue[..i]);
        InObjectIsBetween(c, entries, Some(name), AtValue);
        BetweenIsInKey(c, entries, Some(name), AtValue);
        PartOfBlank(value, m.beforeValue, i);
      }
    }
  }

  lemma FeedColon(c: Core, entries: seq<Entry>, name: string, rest: string)
    requires CanStart(c) && DistinctKeys(entries)
    ensures Good(InObject(c, entries, Some(name), AtColon)) && Good(InObject(c, entries, Some(name), AtValue))
    ensures Feed(InObject(c, entries, Some(name), AtColon), ":" + rest)
         == Feed(InObject(c, entries, Some(name), AtValue), rest)
  {
    hide PrepareSlot, CanStart, Slotted, Feed;
    InObjectIsBetween(c, entries, Some(name), AtColon);
    InObjectIsBetween(c, entries, Some(name), AtValue);
    ColonInFrame(
      InObject(c, entries, Some(name), AtColon), Slotted(c).stack, ObjectFrame(entries, Some(name), AtColon));
    FeedCons(InObject(c, entries, Some(name), AtColon), ':', rest);
  }

  lemma ColonInFrame(c: Core, base: seq<Frame>, f: Frame)
    requires Between(c) && c.stack == base + [f] && f.ObjectFrame? && f.phase == AtColon
    ensures Step(c, ':') == c.(stack := base + [SetPhase(f, AtValue)])
  {
    TopOfPush(base, f);
  }

  lemma InKeyShows(s: Core, c: Core, entries: seq<Entry>)
    requires InKey(s, c, entries)
    ensures Partway(s, c, Some(Object(entries)))
  {
    var key, phase :| s.stack == c.stack + [ObjectFrame(entries, key, phase)];
    BetweenMembers(s, c, ObjectFrame(entries, key, phase));
  }

  lemma {:induction false} PartOfMembers(c: Core, entries: seq<Entry>, ms: seq<Member>, k: nat)
    requires CanStart(c) && Slotted(c) == c && ms != [] && ValidMembers(ms)
    requires DistinctKeys(entries) && k < |MembersText(ms)|
    ensures Good(InObject(c, entries, None, AtKey))
    ensures Partway(
      Feed(InObject(c, entries, None, AtKey), MembersText(ms)[..k]), c, Some(Object(ShownMembers(entries, ms, k))))
    decreases ms, 0
  {
    hide Step, PrepareSlot, Slotted, Place, Feed, CanStart, InObject, Good, Insert, KeyText, Ready, Text, Denote,
         ValidDoc, Partway, InKey, Shown;
    var m := ms[0];
    var name := ItemsValue(m.key);
    var v := Denote(m.doc);
    var c0 := InObject(c, entries, None, AtKey);
    var c1 := InObject(c, entries, Some(name), AtValue);
    var text := Text(m.doc);
    var ending := if |ms| == 1 then "" else MembersText(ms[1..]);
    var ch := if |ms| == 1 then '}' else ',';
    var tail := text + (m.after + ([ch] + ending));
    MemberStates(c, entries, name, v);
    assert MembersText(ms) == m.before + (KeyText(m) + tail);
    if k <= |m.before| + |KeyText(m)| {
      PartBeforeValue(c, entries, m, tail, k);
      InKeyShows(Feed(c0, MembersText(ms)[..k]), c, entries);
    } else {
      var j := k - |m.before| - |KeyText(m)|;
      CutInSecond(m.before, KeyText(m) + tail, k);
      CutInSecond(KeyText(m), tail, k - |m.before|);
      ReadKey(c, entries, AtKey, m);
      KeyThen(c0, c1, m, tail[..j]);
      CutFive("", text, m.after, ch, ending, j);
      NothingBefore(text, tail, j);
      if !Over(m.doc, j) {
        MarkedObject(c, entries, name);
        PartOfDoc(c1, m.doc, j);
        PartwayInObject(Feed(c1, text[..j]), c, entries, name, Shown(m.doc, j));
      } else {
        PartAfterMember(c, entries, ms, j, ch, ending);
      }
    }
  }

  lemma NothingBefore(text: string, tail: string, j: nat)
    requires j <= |tail|
    ensures ("" + tail)[..j] == tail[..j] && "" + tail[..j] == tail[..j]
    ensures "" + tail == tail
    ensures j <= |text| ==> "" + text[..j] == text[..j]
  {
  }

  lemma MarkedObject(c: Core, entries: seq<Entry>, name: string)
    requires CanStart(c) && DistinctKeys(entries)
    ensures Slotted(InObject(c, entries, Some(name), AtValue)) == InObject(c, entries, Some(name), AtValue)
  {
    InObjectIsBetween(c, entries, Some(name), AtValue);
  }

  lemma PartBeforeValue(c: Core, entries: seq<Entry>, m: Member, tail: string, k: nat)
    requires CanStart(c) && Slotted(c) == c && DistinctKeys(entries) && IsBlank(m.before)
    requires ValidItems(m.key) && IsBlank(m.beforeColon) && IsBlank(m.beforeValue)
    requires k <= |m.before| + |KeyText(m)|
    ensures Good(InObject(c, entries, None, AtKey))
    ensures InKey(Feed(InObject(c, entries, None, AtKey), (m.before + (KeyText(m) + tail))[..k]), c, entries)
  {
    hide Feed, Step, Good, CanStart, Slotted, InObject, InKey, KeyText;
    var c0 := InObject(c, entries, None, AtKey);
    InObjectIsBetween(c, entries, None, AtKey);
    if k <= |m.before| {
      CutInFirst(m.before, KeyText(m) + tail, k);
      PartOfBlank(c0, m.before, k);
      BetweenIsInKey(c, entries, None, AtKey);
    } else {
      CutInSecond(m.before, KeyText(m) + tail, k);
      CutInFirst(KeyText(m), tail, k - |m.before|);
      FeedBlank(c0, m.before);
      FeedConcat(c0, m.before, KeyText(m)[..k - |m.before|]);
      PartOfKey(c, entries, m, k - |m.before|);
    }
  }

  lemma {:induction false} PartAfterMember(
    c: Core, entries: seq<Entry>, ms: seq<Member>, k: nat, ch: char, ending: string)
    requires CanStart(c) && Slotted(c) == c && ms != [] && ValidMembers(ms) && DistinctKeys(entries)
    requires ending == if |ms| == 1 then "" else MembersText(ms[1..])
    requires ch == if |ms| == 1 then '}' else ','
    requires k < |Text(ms[0].doc)| + |ms[0].after| + 1 + |ending| && Over(ms[0].doc, k) && k > 0
    ensures Good(InObject(c, entries, Some(ItemsValue(ms[0].key)), AtValue))
    ensures Partway(
      Feed(InObject(c, entries, Some(ItemsValue(ms[0].key)), AtValue),
           (Text(ms[0].doc) + (ms[0].after + ([ch] + ending)))[..k]),
      c, Some(Object(ShownMembers(entries, ms, |ms[0].before| + |KeyText(ms[0])| + k))))
    decreases ms[1..], 2
  {
    hide Step, PrepareSlot, Slotted, Place, Feed, CanStart, InObject, Good, Insert, Ready, Text, Denote, ValidDoc,
         Partway, InKey, KeyText, Shown;
    var m := ms[0];
    var name := ItemsValue(m.key);
    var v := Denote(m.doc);
    var c1 := InObject(c, entries, Some(name), AtValue);
    var text := Text(m.doc);
    var tail := m.after + ([ch] + ending);
    var j := k - |text|;
    var next := Insert(entries, name, v);
    InsertDistinct(entries, name, v);
    MemberStates(c, entries, name, v);
    CutInSecond(text, tail, k);
    ReadDoc(c1, m.doc);
    FeedConcat(c1, text, tail[..j]);
    var placed := InObject(c, next, None, AtComma);
    BetweenIsInKey(c, next, None, AtComma);
    InKeyShows(placed, c, next);
    if j == 0 {
      assert tail[..j] == "";
      FeedNothing(placed);
    } else {
      PartAfterValue(Feed(c1, text), placed, m.after, ch, ending, j);
      if j > |m.after| {
        CommaInObject(c, next, ending[..j - |m.after| - 1]);
        PartOfMembers(c, next, ms[1..], j - |m.after| - 1);
      }
    }
  }

  // ---------------------------------------------------------------------------
  // Whole texts
  // ---------------------------------------------------------------------------

  /** In the end the whole value is shown. */
  lemma ShownAtEnd(d: Doc)
    requires ValidDoc(d) && !d.Scalar?
    ensures Shown(d, |Text(d)|) == Some(Denote(d))
  {
    match d
    case Str(items) =>
      ItemsPastEnd(items);
    case Arr(elems, _) => ElemsAtEnd(elems, |Text(d)| - 1);
    case Obj(members, _) => MembersAtEnd([], members, |Text(d)| - 1);
  }

  lemma {:induction false} ItemsPastEnd(items: seq<StrItem>)
    requires ValidItems(items)
    ensures ItemsSoFar(items, |ItemsText(items)| + 1) == ItemsValue(items)
  {
    hide ItemText, ItemChar, ValidItem;
    if items != [] {
      ItemsPastEnd(items[1..]);
    }
  }

  lemma {:induction false} ElemsAtEnd(es: seq<Elem>, k: nat)
    requires ValidElems(es) && (es != [] ==> k >= |ElemsText(es)|)
    ensures ShownElems(es, k) == DenoteElems(es)
  {
    hide Shown, Denote, Text;
    if es != [] {
      var left := k - |es[0].before| - |Text(es[0].doc)| - |es[0].after| - 1;
      ElemsAtEnd(es[1..], left);
    }
  }

  lemma {:induction false} MembersAtEnd(entries: seq<Entry>, ms: seq<Member>, k: nat)
    requires ValidMembers(ms) && (ms != [] ==> k >= |MembersText(ms)|)
    ensures ShownMembers(entries, ms, k) == DenoteMembers(entries, ms)
    decreases ms
  {
    hide Shown, Denote, Text, KeyText;
    if ms != [] {
      var m := ms[0];
      var left := k - |m.before| - |KeyText(m)| - |Text(m.doc)| - |m.after| - 1;
      MembersAtEnd(Insert(entries, ItemsValue(m.key), Denote(m.doc)), ms[1..], left);
    }
  }

  lemma FreshStarts()
    ensures CanStart(FRESH) && Slotted(FRESH) == FRESH && Between(FRESH)
    ensures Snapshot(FRESH) == None
    ensures forall v :: Snapshot(Place(FRESH, v)) == Some(v)
  {
  }

  /** After any prefix of any text the snapshot is exactly what that prefix shows. */
  lemma SnapshotIsShown(before: string, d: Doc, k: nat)
    requires IsBlank(before) && ValidDoc(d) && k <= |before| + |Text(d)|
    ensures Snapshot(Feed(FRESH, (before + Text(d))[..k])) == if k <= |before| then None else Shown(d, k - |before|)
  {
    hide Feed, Step, Text, Shown, Place, Good, Denote, ValidDoc, PrepareSlot, Fold;
    FreshIsGood();
    FreshStarts();
    if k <= |before| {
      CutInFirst(before, Text(d), k);
      PartOfBlank(FRESH, before, k);
    } else {
      var j := k - |before|;
      CutInSecond(before, Text(d), k);
      FeedBlank(FRESH, before);
      FeedConcat(FRESH, before, Text(d)[..j]);
      if !Over(d, j) {
        PartOfDoc(FRESH, d, j);
        var s := Feed(FRESH, Text(d)[..j]);
        assert s.stack[0..] == s.stack;
      } else {
        assert Text(d)[..j] == Text(d);
        ReadDoc(FRESH, d);
        ShownAtEnd(d);
      }
    }
  }
}
