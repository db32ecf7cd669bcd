/** The arguments of one streamed tool call: the text so far and the parser that follows it. */
module ArgumentsStream {
  import opened Options
  import opened Json
  import opened StreamingCore
  import opened StreamingPrefix
  import opened StreamingWeight
  import opened StreamingParser

  /** The argument object a snapshot stands for. */
  function ArgumentsOf(shown: Option<Json>): seq<Entry> {
    if shown.Some? && shown.value.Object? then shown.value.entries else []
  }

  class ToolCallArgumentsStream {
    var text: string
    var parser: StreamingJsonParser

    /** The parser is always exactly where reading the whole text from the start would take it. */
    ghost predicate Valid()
      reads this, parser
    {
      parser.Valid() && parser.State() == Feed(FRESH, text)
    }

    constructor ()
      ensures Valid() && text == "" && fresh(parser)
    {
      text := "";
      parser := new StreamingJsonParser();
    }

    /** The arguments last shown, refreshed when the parser's credit allows it. */
    method PartialRef() returns (refreshed: bool, arguments: seq<Entry>)
      requires Valid()
      modifies parser
      ensures Valid() && text == old(text) && parser == old(parser)
      ensures arguments == ArgumentsOf(parser.cachedSnapshot)
      ensures arguments == ArgumentsOf(Snapshot(Feed(FRESH, text))) || SnapshotCost(Feed(FRESH, text)) > parser.credit
      ensures !refreshed ==> arguments == ArgumentsOf(old(parser.cachedSnapshot))
    {
      var shown: Option<Json>;
      refreshed, shown := parser.SnapshotRef();
      arguments := ArgumentsOf(shown);
    }

    method AppendWithChange(delta: string) returns (refreshed: bool, arguments: seq<Entry>)
      requires Valid()
      modifies this`text, parser
      ensures Valid() && text == old(text) + delta && parser == old(parser)
      ensures arguments == ArgumentsOf(parser.cachedSnapshot)
      ensures arguments == ArgumentsOf(Snapshot(Feed(FRESH, text))) || SnapshotCost(Feed(FRESH, text)) > parser.credit
      ensures !refreshed ==> arguments == ArgumentsOf(old(parser.cachedSnapshot))
    {
      FeedConcat(FRESH, text, delta);
      text := text + delta;
      parser.Append(delta);
      refreshed, arguments := PartialRef();
    }

    /** Replaces the text. An extension is read on from where the parser stands;
        anything else starts over; either way the result is the state of the new text. */
    method Replace(newText: string) returns (delta: Option<string>, arguments: seq<Entry>)
      requires Valid()
      modifies this, parser
      ensures Valid() && text == newText
      ensures parser == old(parser) || fresh(parser)
      ensures delta == if old(text) < newText then Some(newText[|old(text)|..]) else None
      ensures parser == old(parser) <==> old(text) <= newText
      ensures arguments == ArgumentsOf(Snapshot(Feed(FRESH, text))) || SnapshotCost(Feed(FRESH, text)) > parser.credit
    {
      var refreshed: bool;
      if text <= newText {
        var rest := newText[|text|..];
        assert newText == text + rest;
        if rest == "" {
          delta := None;
          refreshed, arguments := PartialRef();
        } else {
          delta := Some(rest);
          refreshed, arguments := AppendWithChange(rest);
        }
        return;
      }
      text := "";
      parser := new StreamingJsonParser();
      delta := None;
      refreshed, arguments := AppendWithChange(newText);
      assert "" + newText == newText;
    }
  }
}
