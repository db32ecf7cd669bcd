/** Adapting a history to another model: images it cannot read become text,
    another model's private blocks and signatures go, and tool call ids are
    normalised together with the results that answer them. */
module HistoryRewrite {
  import opened Options
  import opened Chars
  import opened Seqs
  import opened Messages

  datatype Model = Model(provider: string, api: string, id: string, readsImages: bool)

  /** What the new provider makes of another model's tool call id. */
  type Normalizer = Option<(string, Model, AssistantMessage) -> string>

  type IdMap = map<string, string>

  // ---------------------------------------------------------------------------
  // Images
  // ---------------------------------------------------------------------------

  const USER_IMAGE := "(image omitted: model does not support images)"
  const TOOL_IMAGE := "(tool image omitted: model does not support images)"

  function ReplaceImages(blocks: seq<UserBlock>, placeholder: string, justPlaced: bool): seq<UserBlock> {
    if blocks == [] then []
    else match blocks[0]
      case Image(_) =>
        (if justPlaced then [] else [UserText(placeholder, None)]) + ReplaceImages(blocks[1..], placeholder, true)
      case UserText(text, _) =>
        [blocks[0]] + ReplaceImages(blocks[1..], placeholder, text == placeholder)
  }

  method ReplaceImagesWithPlaceholder(blocks: seq<UserBlock>, placeholder: string) returns (result: seq<UserBlock>)
    ensures result == ReplaceImages(blocks, placeholder, false)
  {
    result := [];
    var previousWasPlaceholder := false;
    for i := 0 to |blocks|
      invariant result + ReplaceImages(blocks[i..], placeholder, previousWasPlaceholder)
        == ReplaceImages(blocks, placeholder, false)
    {
      ghost var rest := ReplaceImages(blocks[i..], placeholder, previousWasPlaceholder);
      assert blocks[i..][0] == blocks[i] && blocks[i..][1..] == blocks[i + 1..];
      match blocks[i]
      case Image(_) =>
        if !previousWasPlaceholder {
          ConcatAssociates(result, [UserText(placeholder, None)], ReplaceImages(blocks[i + 1..], placeholder, true));
          result := result + [UserText(placeholder, None)];
        } else {
          ConcatNothing(ReplaceImages(blocks[i + 1..], placeholder, true));
        }
        previousWasPlaceholder := true;
      case UserText(text, _) =>
        ConcatAssociates(result, [blocks[i]], ReplaceImages(blocks[i + 1..], placeholder, text == placeholder));
        result := result + [blocks[i]];
        previousWasPlaceholder := text == placeholder;
    }
    ConcatNothing(result);
  }

  function TextsBut(blocks: seq<UserBlock>, placeholder: string): seq<UserBlock> {
    if blocks == [] then []
    else
      (if blocks[0].UserText? && blocks[0].text != placeholder then [blocks[0]] else [])
      + TextsBut(blocks[1..], placeholder)
  }

  function Images(blocks: seq<UserBlock>): nat {
    if blocks == [] then 0 else (if blocks[0].Image? then 1 else 0) + Images(blocks[1..])
  }

  predicate Mentions(blocks: seq<UserBlock>, placeholder: string) {
    exists i :: 0 <= i < |blocks| && blocks[i].UserText? && blocks[i].text == placeholder
  }

  /** No image is left, every other text is, in order, and where an image was the
      placeholder now stands. */
  lemma {:induction false} ImagesBecomePlaceholders(blocks: seq<UserBlock>, placeholder: string, justPlaced: bool)
    ensures var r := ReplaceImages(blocks, placeholder, justPlaced);
      && Images(r) == 0
      && TextsBut(r, placeholder) == TextsBut(blocks, placeholder)
      && (Images(blocks) > 0 && !justPlaced ==> Mentions(r, placeholder))
      && |r| <= |blocks|
    decreases |blocks|
  {
    if blocks != [] {
      var next := blocks[0].Image? || blocks[0].text == placeholder;
      ImagesBecomePlaceholders(blocks[1..], placeholder, next);
      var rest := ReplaceImages(blocks[1..], placeholder, next);
      var head := if blocks[0].UserText? then [blocks[0]] else if justPlaced then [] else [UserText(placeholder, None)];
      var r := head + rest;
      assert ReplaceImages(blocks, placeholder, justPlaced) == r;
      if head != [] {
        assert r[1..] == rest && r[0] == head[0];
        if !next && Mentions(rest, placeholder) {
          var i :| 0 <= i < |rest| && rest[i].UserText? && rest[i].text == placeholder;
          assert r[i + 1] == rest[i];
        }
      } else {
        ConcatNothing(rest);
      }
    }
  }

  function DowngradeImages(m: Message, model: Model): Message {
    if model.readsImages then m
    else match m
      case User(UserBlocks(blocks)) => User(UserBlocks(ReplaceImages(blocks, USER_IMAGE, false)))
      case Result(r) => Result(r.(content := ReplaceImages(r.content, TOOL_IMAGE, false)))
      case _ => m
  }

  // ---------------------------------------------------------------------------
  // Blocks of assistant messages
  // ---------------------------------------------------------------------------

  predicate SameModel(a: AssistantMessage, model: Model) {
    a.provider == model.provider && a.api == model.api && a.model == model.id
  }

  predicate IsBlank(s: string) { forall i :: 0 <= i < |s| ==> IsWhitespace(s[i]) }

  function NewId(id: string, a: AssistantMessage, model: Model, normalize: Normalizer): string {
    if SameModel(a, model) || normalize.None? then id else normalize.value(id, model, a)
  }

  function NewCall(c: ToolCall, a: AssistantMessage, model: Model, normalize: Normalizer): ToolCall {
    if SameModel(a, model) then c
    else c.(thoughtSignature := None, id := NewId(c.id, a, model, normalize))
  }

  function RewriteBlock(b: ContentBlock, a: AssistantMessage, model: Model, normalize: Normalizer): seq<ContentBlock> {
    match b
    case Thinking(thinking, signature, redacted) =>
      if !SameModel(a, model) then []
      else if redacted == Some(true) || signature.Some? || !IsBlank(thinking) then [b]
      else []
    case TextBlock(text, _) => if SameModel(a, model) then [b] else [TextBlock(text, None)]
    case CallBlock(c) => [CallBlock(NewCall(c, a, model, normalize))]
  }

  function RewriteContent(
    content: seq<ContentBlock>, a: AssistantMessage, model: Model, normalize: Normalizer): seq<ContentBlock>
  {
    if content == [] then []
    else RewriteBlock(content[0], a, model, normalize) + RewriteContent(content[1..], a, model, normalize)
  }

  /** The ids changed by one more assistant message. */
  function Remember(ids: IdMap, calls: seq<ToolCall>, a: AssistantMessage, model: Model, normalize: Normalizer): IdMap
    decreases |calls|
  {
    if calls == [] then ids
    else
      var id := calls[0].id;
      var next := NewId(id, a, model, normalize);
      Remember(if next != id then ids[id := next] else ids, calls[1..], a, model, normalize)
  }

  function IdsAfter(ids: IdMap, m: Message, model: Model, normalize: Normalizer): IdMap {
    if m.Assistant? then Remember(ids, CallsOf(m.assistant.content), m.assistant, model, normalize) else ids
  }

  function RewriteMessage(ids: IdMap, m: Message, model: Model, normalize: Normalizer): Message {
    match m
    case Result(r) => Result(r.(toolCallId := if r.toolCallId in ids then ids[r.toolCallId] else r.toolCallId))
    case Assistant(a) => Assistant(a.(content := RewriteContent(a.content, a, model, normalize)))
    case _ => m
  }

  function Rewrite(ids: IdMap, ms: seq<Message>, model: Model, normalize: Normalizer): seq<Message>
    decreases |ms|
  {
    if ms == [] then []
    else
      [RewriteMessage(ids, DowngradeImages(ms[0], model), model, normalize)]
      + Rewrite(IdsAfter(ids, ms[0], model, normalize), ms[1..], model, normalize)
  }

  /** The ids in force in front of message `i`. */
  function IdsBefore(ms: seq<Message>, i: nat, model: Model, normalize: Normalizer): IdMap
    requires i <= |ms|
  {
    if i == 0 then map[] else IdsAfter(IdsBefore(ms, i - 1, model, normalize), ms[i - 1], model, normalize)
  }

  // ---------------------------------------------------------------------------
  // The loops
  // ---------------------------------------------------------------------------

  method RewriteAssistant(a: AssistantMessage, model: Model, normalize: Normalizer, ids: IdMap)
    returns (rewritten: AssistantMessage, ids': IdMap)
    ensures rewritten == a.(content := RewriteContent(a.content, a, model, normalize))
    ensures ids' == Remember(ids, CallsOf(a.content), a, model, normalize)
  {
    var isSameModel := SameModel(a, model);
    var content: seq<ContentBlock> := [];
    ids' := ids;
    for i := 0 to |a.content|
      invariant content + RewriteContent(a.content[i..], a, model, normalize)
        == RewriteContent(a.content, a, model, normalize)
      invariant Remember(ids', CallsOf(a.content[i..]), a, model, normalize)
        == Remember(ids, CallsOf(a.content), a, model, normalize)
    {
      var b := a.content[i];
      ghost var rest := a.content[i + 1..];
      assert a.content[i..][0] == b && a.content[i..][1..] == rest;
      ConcatAssociates(content, RewriteBlock(b, a, model, normalize), RewriteContent(rest, a, model, normalize));
      ConcatNothing(content);
      match b
      case Thinking(thinking, signature, redacted) =>
        ConcatNothing(CallsOf(rest));
        if isSameModel {
          if redacted == Some(true) || signature.Some? {
            content := content + [b];
          } else if !IsBlank(thinking) {
            content := content + [b];
          }
        }
      case TextBlock(text, _) =>
        ConcatNothing(CallsOf(rest));
        content := content + [if isSameModel then b else TextBlock(text, None)];
      case CallBlock(c) =>
        assert CallsOf(a.content[i..]) == [c] + CallsOf(rest);
        assert ([c] + CallsOf(rest))[1..] == CallsOf(rest);
        var next := c;
        if !isSameModel {
          next := next.(thoughtSignature := None);
          if normalize.Some? {
            var normalized := normalize.value(c.id, model, a);
            if normalized != c.id {
              ids' := ids'[c.id := normalized];
              next := next.(id := normalized);
            }
          }
        }
        content := content + [CallBlock(next)];
    }
    ConcatNothing(content);
    rewritten := a.(content := content);
  }

  method RewriteHistory(messages: seq<Message>, model: Model, normalize: Normalizer)
    returns (transformed: seq<Message>)
    ensures transformed == Rewrite(map[], messages, model, normalize)
  {
    transformed := [];
    var ids: IdMap := map[];
    for i := 0 to |messages|
      invariant transformed + Rewrite(ids, messages[i..], model, normalize)
        == Rewrite(map[], messages, model, normalize)
    {
      assert messages[i..][0] == messages[i] && messages[i..][1..] == messages[i + 1..];
      var m := DowngradeImages(messages[i], model);
      var next := m;
      ghost var before := ids;
      match m {
        case Result(r) =>
          if r.toolCallId in ids && ids[r.toolCallId] != r.toolCallId {
            next := Result(r.(toolCallId := ids[r.toolCallId]));
          }
        case Assistant(a) =>
          var rewritten;
          rewritten, ids := RewriteAssistant(a, model, normalize, ids);
          next := Assistant(rewritten);
        case _ =>
      }
      assert next == RewriteMessage(before, m, model, normalize);
      assert ids == IdsAfter(before, messages[i], model, normalize);
      ConcatAssociates(transformed, [next], Rewrite(ids, messages[i + 1..], model, normalize));
      transformed := transformed + [next];
    }
    ConcatNothing(transformed);
  }

  // ---------------------------------------------------------------------------
  // Calls and results stay paired
  // ---------------------------------------------------------------------------

  lemma {:induction false} RewriteAt(
    ids: IdMap, ms: seq<Message>, model: Model, normalize: Normalizer, done: seq<Message>, i: nat)
    requires i < |ms| && ids == IdsBefore(done + ms, |done|, model, normalize)
    ensures |Rewrite(ids, ms, model, normalize)| == |ms|
    ensures Rewrite(ids, ms, model, normalize)[i]
      == RewriteMessage(
           IdsBefore(done + ms, |done| + i, model, normalize), DowngradeImages(ms[i], model), model, normalize)
    decreases |ms|
  {
    var next := IdsAfter(ids, ms[0], model, normalize);
    assert done + ms == done + [ms[0]] + ms[1..];
    assert next == IdsBefore(done + [ms[0]] + ms[1..], |done| + 1, model, normalize);
    if |ms| > 1 {
      RewriteAt(next, ms[1..], model, normalize, done + [ms[0]], if i > 0 then i - 1 else 0);
    }
  }

  lemma {:induction false} CallsRewritten(
    content: seq<ContentBlock>, a: AssistantMessage, model: Model, normalize: Normalizer)
    ensures var calls, rewritten := CallsOf(content), CallsOf(RewriteContent(content, a, model, normalize));
      |rewritten| == |calls| && forall i :: 0 <= i < |calls| ==> rewritten[i] == NewCall(calls[i], a, model, normalize)
  {
    if content != [] {
      CallsRewritten(content[1..], a, model, normalize);
      var head := RewriteBlock(content[0], a, model, normalize);
      var rest := RewriteContent(content[1..], a, model, normalize);
      CallsOfBlock(content[0], a, model, normalize);
      hide RewriteBlock, NewCall;
      CallsOfFirst(head, rest);
    }
  }

  /** A block stays one call, or none. */
  lemma CallsOfBlock(b: ContentBlock, a: AssistantMessage, model: Model, normalize: Normalizer)
    ensures |RewriteBlock(b, a, model, normalize)| <= 1
    ensures CallsOf(RewriteBlock(b, a, model, normalize))
      == if b.CallBlock? then [NewCall(b.call, a, model, normalize)] else []
  {
    hide NewCall, IsBlank;
    var head := RewriteBlock(b, a, model, normalize);
    if head != [] {
      assert head[1..] == [];
    }
  }

  lemma CallsOfFirst(head: seq<ContentBlock>, rest: seq<ContentBlock>)
    requires |head| <= 1
    ensures CallsOf(head + rest) == CallsOf(head) + CallsOf(rest)
  {
    if head == [] {
      ConcatNothing(rest);
      ConcatNothing(CallsOf(rest));
    } else {
      assert (head + rest)[1..] == rest && head[1..] == [];
      ConcatNothing(if head[0].CallBlock? then [head[0].call] else []);
    }
  }

  predicate HasId(calls: seq<ToolCall>, id: string) { exists i :: 0 <= i < |calls| && calls[i].id == id }

  lemma {:induction false} RememberGives(
    ids: IdMap, calls: seq<ToolCall>, a: AssistantMessage, model: Model, normalize: Normalizer, id: string)
    ensures var after := Remember(ids, calls, a, model, normalize);
      if HasId(calls, id) && NewId(id, a, model, normalize) != id
      then id in after && after[id] == NewId(id, a, model, normalize)
      else (id in after <==> id in ids) && (id in ids ==> after[id] == ids[id])
    decreases |calls|
  {
    if calls != [] {
      var next := NewId(calls[0].id, a, model, normalize);
      var ids' := if next != calls[0].id then ids[calls[0].id := next] else ids;
      RememberGives(ids', calls[1..], a, model, normalize, id);
      if HasId(calls, id) && calls[0].id != id {
        var i :| 0 <= i < |calls| && calls[i].id == id;
        assert calls[1..][i - 1].id == id;
      }
    }
  }

  /** An assistant message before `i` had a call of this id under another id now. */
  predicate RenamedBefore(ms: seq<Message>, i: nat, id: string, model: Model, normalize: Normalizer)
    requires i <= |ms|
  {
    exists k :: 0 <= k < i && ms[k].Assistant? && HasId(CallsOf(ms[k].assistant.content), id)
      && NewId(id, ms[k].assistant, model, normalize) != id
  }

  lemma {:induction false} IdsAreRenamings(ms: seq<Message>, i: nat, model: Model, normalize: Normalizer, id: string)
    requires i <= |ms|
    ensures var ids := IdsBefore(ms, i, model, normalize);
      (id in ids <==> RenamedBefore(ms, i, id, model, normalize)) && (id in ids ==> ids[id] != id)
  {
    if i > 0 {
      IdsAreRenamings(ms, i - 1, model, normalize, id);
      if ms[i - 1].Assistant? {
        var a := ms[i - 1].assistant;
        RememberGives(IdsBefore(ms, i - 1, model, normalize), CallsOf(a.content), a, model, normalize, id);
      }
    }
  }

  lemma {:induction false} IdsBetween(ms: seq<Message>, i: nat, j: nat, model: Model, normalize: Normalizer)
    requires i <= j <= |ms| && forall k :: i <= k < j ==> !ms[k].Assistant?
    ensures IdsBefore(ms, j, model, normalize) == IdsBefore(ms, i, model, normalize)
    decreases j
  {
    if i < j {
      IdsBetween(ms, i, j - 1, model, normalize);
    }
  }

  /** A call and a result that answers it before the next assistant message carry
      one id afterwards exactly when the call itself is renamed or no earlier
      assistant message had a call of that id renamed. */
  lemma PairingKeptExactly(ms: seq<Message>, i: nat, n: nat, j: nat, model: Model, normalize: Normalizer)
    requires i < j < |ms| && ms[i].Assistant? && ms[j].Result?
    requires forall k :: i < k < j ==> !ms[k].Assistant?
    requires n < |CallsOf(ms[i].assistant.content)|
    requires ms[j].result.toolCallId == CallsOf(ms[i].assistant.content)[n].id
    ensures var id := ms[j].result.toolCallId;
      var r := Rewrite(map[], ms, model, normalize);
      && |r| == |ms| && r[i].Assistant? && r[j].Result? && n < |CallsOf(r[i].assistant.content)|
      && (r[j].result.toolCallId == CallsOf(r[i].assistant.content)[n].id <==>
          (NewId(id, ms[i].assistant, model, normalize) != id || !RenamedBefore(ms, i, id, model, normalize)))
  {
    hide Rewrite, NewId, IdsBefore, Remember, RenamedBefore, CallsOf, RewriteContent;
    var a := ms[i].assistant;
    var calls := CallsOf(a.content);
    var id := calls[n].id;
    assert [] + ms == ms;
    IdsAtStart(ms, model, normalize);
    RewriteAt(map[], ms, model, normalize, [], i);
    RewriteAt(map[], ms, model, normalize, [], j);
    CallsRewritten(a.content, a, model, normalize);
    NewCallId(calls[n], a, model, normalize);
    IdsStep(ms, i, model, normalize);
    IdsBetween(ms, i + 1, j, model, normalize);
    IdsAreRenamings(ms, i, model, normalize, id);
    assert HasId(calls, id);
    RememberGives(IdsBefore(ms, i, model, normalize), calls, a, model, normalize, id);
  }

  lemma IdsAtStart(ms: seq<Message>, model: Model, normalize: Normalizer)
    ensures IdsBefore(ms, 0, model, normalize) == map[]
  {
  }

  lemma IdsStep(ms: seq<Message>, i: nat, model: Model, normalize: Normalizer)
    requires i < |ms| && ms[i].Assistant?
    ensures IdsBefore(ms, i + 1, model, normalize) == Remember(
      IdsBefore(ms, i, model, normalize), CallsOf(ms[i].assistant.content), ms[i].assistant, model, normalize)
  {
  }

  lemma NewCallId(c: ToolCall, a: AssistantMessage, model: Model, normalize: Normalizer)
    ensures NewCall(c, a, model, normalize).id == NewId(c.id, a, model, normalize)
  {
  }

  /** An id that was renamed for another model's call and comes back in a call of
      the target model itself loses its result. */
  lemma ReusedIdLosesItsResult(
    foreign: AssistantMessage, own: AssistantMessage, c: ToolCall, r: ToolResult, model: Model, normalize: Normalizer)
    requires foreign.content == [CallBlock(c)] && own.content == [CallBlock(c)] && r.toolCallId == c.id
    requires SameModel(own, model) && !SameModel(foreign, model)
    requires normalize.Some? && normalize.value(c.id, model, foreign) != c.id
    ensures var t := Rewrite(map[], [Assistant(foreign), Assistant(own), Result(r)], model, normalize);
      && |t| == 3 && t[1].Assistant? && t[2].Result?
      && |CallsOf(t[1].assistant.content)| == 1
      && t[2].result.toolCallId != CallsOf(t[1].assistant.content)[0].id
  {
    var ms := [Assistant(foreign), Assistant(own), Result(r)];
    assert CallsOf([CallBlock(c)]) == [c] by {
      assert [CallBlock(c)][1..] == [];
    }
    assert HasId(CallsOf(ms[0].assistant.content), c.id) by {
      assert CallsOf(ms[0].assistant.content)[0].id == c.id;
    }
    PairingKeptExactly(ms, 1, 0, 2, model, normalize);
    RewriteAt(map[], ms, model, normalize, [], 1);
    CallsRewritten(own.content, own, model, normalize);
  }

  /** Nothing moves, and what is not an image, a private block, a signature or an
      id stays. */
  predicate SameKind(a: Message, b: Message) {
    match a
    case System(s) => b == a
    case User(_) => b.User?
    case Result(r) => b.Result? && b.result.(content := [], toolCallId := "") == r.(content := [], toolCallId := "")
    case Assistant(m) => b.Assistant? && b.assistant.(content := []) == m.(content := [])
  }

  lemma RewriteKeepsKinds(ms: seq<Message>, model: Model, normalize: Normalizer)
    ensures var r := Rewrite(map[], ms, model, normalize);
      |r| == |ms| && forall i :: 0 <= i < |ms| ==> SameKind(ms[i], r[i])
  {
    var r := Rewrite(map[], ms, model, normalize);
    IdsAtStart(ms, model, normalize);
    assert [] + ms == ms;
    if ms != [] {
      RewriteAt(map[], ms, model, normalize, [], 0);
    }
    forall i | 0 <= i < |ms|
      ensures SameKind(ms[i], r[i])
    {
      RewriteAt(map[], ms, model, normalize, [], i);
    }
  }
}
