/** `repair_json` escapes what strict JSON does not allow inside strings. The
    tolerant parser reads the repaired text exactly as it reads the original. */
module RepairJson {
  import opened Options
  import opened StreamingCore
  import opened JsonText
  import opened Seqs
  import opened StreamingRead

  predicate IsControl(c: char) { c as int <= 0x1F }

  function EscapeControl(c: char): string
    requires IsControl(c)
  {
    if c == 8 as char then "\\b"
    else if c == 12 as char then "\\f"
    else if c == '\n' then "\\n"
    else if c == '\r' then "\\r"
    else if c == '\t' then "\\t"
    else "\\u" + ("00" + [Nibble(c as int / 16), Nibble(c as int % 16)])
  }

  predicate IsUnicodeEscape(s: string) {
    |s| > 5 && s[0] == '\\' && s[1] == 'u' && AllHex(s[2..6])
  }

  function Repair(s: string, inString: bool): string
    decreases |s|
  {
    if s == [] then ""
    else if !inString then [s[0]] + Repair(s[1..], s[0] == '"')
    else if s[0] == '"' then "\"" + Repair(s[1..], false)
    else if s[0] == '\\' then
      if |s| == 1 then "\\\\" + Repair(s[1..], true)
      else if IsUnicodeEscape(s) then "\\u" + s[2..6] + Repair(s[6..], true)
      else if SimpleEscape(s[1]).Some? then ['\\', s[1]] + Repair(s[2..], true)
      else "\\\\" + Repair(s[1..], true)
    else if IsControl(s[0]) then EscapeControl(s[0]) + Repair(s[1..], true)
    else [s[0]] + Repair(s[1..], true)
  }

  /** The index loop over the text computes `Repair`. */
  method RepairText(json: string) returns (repaired: string)
    ensures repaired == Repair(json, false)
  {
    repaired := "";
    var inString := false;
    var index := 0;
    while index < |json|
      invariant index <= |json|
      invariant repaired + Repair(json[index..], inString) == Repair(json, false)
    {
      var ch := json[index];
      ghost var rest := json[index..];
      ghost var done := repaired;
      assert rest[1..] == json[index + 1..];
      if !inString {
        repaired := repaired + [ch];
        inString := ch == '"';
        index := index + 1;
        ConcatAssociates(done, [ch], Repair(rest[1..], ch == '"'));
      } else if ch == '"' {
        repaired := repaired + [ch];
        inString := false;
        index := index + 1;
        ConcatAssociates(done, "\"", Repair(rest[1..], false));
      } else if ch == '\\' {
        if index + 1 >= |json| {
          repaired := repaired + "\\\\";
          index := index + 1;
          ConcatAssociates(done, "\\\\", Repair(rest[1..], true));
        } else {
          var next := json[index + 1];
          assert rest[1] == next && rest[2..] == json[index + 2..];
          if next == 'u' && index + 5 < |json| && AllHex(json[index + 2..index + 6]) {
            assert rest[2..6] == json[index + 2..index + 6] && rest[6..] == json[index + 6..];
            repaired := repaired + ("\\u" + json[index + 2..index + 6]);
            index := index + 6;
            ConcatAssociates(done, "\\u" + rest[2..6], Repair(rest[6..], true));
          } else {
            assert !IsUnicodeEscape(rest) by {
              if |rest| > 5 {
                assert rest[2..6] == json[index + 2..index + 6];
              }
            }
            if SimpleEscape(next).Some? {
              repaired := repaired + [ch, next];
              index := index + 2;
              ConcatAssociates(done, [ch, next], Repair(rest[2..], true));
            } else {
              repaired := repaired + "\\\\";
              index := index + 1;
              ConcatAssociates(done, "\\\\", Repair(rest[1..], true));
            }
          }
        }
      } else if IsControl(ch) {
        repaired := repaired + EscapeControl(ch);
        index := index + 1;
        ConcatAssociates(done, EscapeControl(ch), Repair(rest[1..], true));
      } else {
        repaired := repaired + [ch];
        index := index + 1;
        ConcatAssociates(done, [ch], Repair(rest[1..], true));
      }
    }
  }

  // ---------------------------------------------------------------------------
  // Meaning is preserved
  // ---------------------------------------------------------------------------

  /** An unfinished escape read as the characters it consists of. */
  function Literally(o: OpenString): OpenString {
    var flushed := FlushHigh(o);
    flushed.(text := flushed.text + o.escape, escape := "")
  }

  /** What the parser would hold if the text ended here: a pending escape becomes literal. */
  function Settle(c: Core): Core {
    if c.open.Some? && c.open.value.escape != "" then c.(open := Some(Literally(c.open.value))) else c
  }

  function WithOpen(c: Core, o: OpenString): Core { c.(open := Some(o)) }

  /** An incomplete `\u` escape and its literal reading agree once a character rules it out. */
  lemma {:induction false} IncompleteUnicode(c: Core, o: OpenString, t: string)
    requires Good(c) && c.open == Some(o) && |o.escape| >= 2
    requires var missing := 6 - |o.escape|; |t| < missing || !AllHex(t[..missing])
    ensures Good(WithOpen(c, Literally(o)))
    ensures Settle(Feed(c, t)) == Settle(Feed(WithOpen(c, Literally(o)), t))
    decreases |t|
  {
    var l := WithOpen(c, Literally(o));
    if t == [] {
    } else if IsHexDigit(t[0]) {
      IncompleteUnicodeDigit(c, o, t[0]);
      var longer := o.(escape := o.escape + [t[0]]);
      var missing := 6 - |o.escape|;
      if |t| >= missing {
        assert t[..missing] == [t[0]] + t[1..][..missing - 1];
      }
      IncompleteUnicode(WithOpen(c, longer), longer, t[1..]);
    } else {
      StepIsGood(c, t[0]);
      assert Step(c, t[0]) == Step(l, t[0]);
    }
  }

  lemma IncompleteUnicodeDigit(c: Core, o: OpenString, digit: char)
    requires Good(c) && c.open == Some(o) && 2 <= |o.escape| && IsHexDigit(digit)
    ensures |o.escape| < 5 ==>
      && Step(c, digit) == WithOpen(c, o.(escape := o.escape + [digit]))
      && Good(Step(c, digit))
      && Step(WithOpen(c, Literally(o)), digit) == WithOpen(c, Literally(o.(escape := o.escape + [digit])))
  {
    StepIsGood(c, digit);
    var flushed := FlushHigh(o);
    ConcatAssociates(flushed.text, o.escape, [digit]);
  }

  /** A backslash that starts no escape is an escaped backslash. */
  lemma InvalidEscape(c: Core, o: OpenString, t: string)
    requires Good(c) && c.open == Some(o) && o.escape == ""
    requires t != [] ==> SimpleEscape(t[0]).None? && !IsUnicodeEscape(['\\'] + t)
    ensures var pending := o.(escape := "\\");
      && Good(WithOpen(c, pending)) && Good(WithOpen(c, Literally(pending)))
      && Settle(Feed(WithOpen(c, pending), t)) == Settle(Feed(WithOpen(c, Literally(pending)), t))
  {
    var pending := o.(escape := "\\");
    var p := WithOpen(c, pending);
    var l := WithOpen(c, Literally(pending));
    if t != [] {
      StepIsGood(p, t[0]);
      if t[0] == 'u' {
        var u := o.(escape := "\\u");
        assert Step(p, 'u') == WithOpen(c, u);
        ConcatAssociates(FlushHigh(o).text, "\\", "u");
        assert "\\" + "u" == "\\u";
        assert Step(l, 'u') == WithOpen(c, Literally(u));
        var whole := ['\\'] + t;
        assert |t| > 4 ==> whole[2..6] == t[1..][..4];
        IncompleteUnicode(WithOpen(c, u), u, t[1..]);
      } else {
        assert Step(p, t[0]) == Step(l, t[0]);
      }
    }
  }

  /** An escaped backslash appends a backslash. */
  lemma EscapedBackslash(c: Core, o: OpenString)
    requires Good(c) && c.open == Some(o) && o.escape == ""
    ensures Feed(c, "\\\\") == WithOpen(c, Literally(o.(escape := "\\")))
    ensures Good(Feed(c, "\\\\"))
  {
    StepIsGood(c, '\\');
    FeedCons(c, '\\', "\\");
    FeedOne(Step(c, '\\'), '\\');
    assert "\\\\" == ['\\'] + "\\";
  }

  /** The escape of a control character appends what the bare character appends. */
  lemma EscapedControl(c: Core, o: OpenString, ch: char)
    requires Good(c) && c.open == Some(o) && o.escape == "" && IsControl(ch)
    ensures Feed(c, EscapeControl(ch)) == Feed(c, [ch]) == WithOpen(c, Push(FlushHigh(o), ch))
  {
    FeedOne(c, ch);
    if ch in [8 as char, 12 as char, '\n', '\r', '\t'] {
      ShortControl(c, o, ch);
    } else {
      LongControl(c, o, ch);
    }
  }

  lemma ShortLetter(c: Core, o: OpenString, letter: char)
    requires Good(c) && c.open == Some(o) && o.escape == "" && SimpleEscape(letter).Some?
    ensures Feed(c, ['\\', letter]) == WithOpen(c, Push(FlushHigh(o), SimpleEscape(letter).value))
  {
    PendingBackslash(c, o);
    FeedConcat(c, ['\\'], [letter]);
    FeedOne(WithOpen(c, o.(escape := "\\")), letter);
    assert ['\\', letter] == ['\\'] + [letter];
  }

  lemma ShortControl(c: Core, o: OpenString, ch: char)
    requires Good(c) && c.open == Some(o) && o.escape == "" && ch in [8 as char, 12 as char, '\n', '\r', '\t']
    ensures Feed(c, EscapeControl(ch)) == WithOpen(c, Push(FlushHigh(o), ch))
  {
    hide Feed, Step, Good, FlushHigh;
    var letter := EscapeControl(ch)[1];
    assert EscapeControl(ch) == ['\\', letter];
    ShortLetter(c, o, letter);
  }

  lemma LongControl(c: Core, o: OpenString, ch: char)
    requires Good(c) && c.open == Some(o) && o.escape == "" && IsControl(ch)
    requires ch !in [8 as char, 12 as char, '\n', '\r', '\t']
    ensures Feed(c, EscapeControl(ch)) == WithOpen(c, Push(FlushHigh(o), ch))
  {
    hide Feed, Step, Good;
    var h := "00" + [Nibble(ch as int / 16), Nibble(ch as int % 16)];
    assert h[0] == '0' && h[1] == '0' && h[2] == Nibble(ch as int / 16) && h[3] == Nibble(ch as int % 16);
    FeedUnicodeEscape(c, o, h);
  }

  /** Outside strings exactly a quote opens one, unless the root has ended. */
  lemma QuoteOpens(c: Core, ch: char)
    requires Good(c) && !c.done && c.open.None?
    ensures Good(Step(c, ch))
    ensures Step(c, ch).done || (Step(c, ch).open.Some? <==> ch == '"')
    ensures Step(c, ch).open.Some? ==> Step(c, ch).open.value.escape == ""
  {
    StepIsGood(c, ch);
    if c.scalarTarget.Some? {
      if IsDelimiter(ch) {
        FinishScalarIsGood(c);
        if !FinishScalar(c).done {
          StructuralCharIsGood(FinishScalar(c), ch);
        }
      }
    } else {
      StructuralCharIsGood(c, ch);
    }
  }

  /** Inside a string exactly a quote closes it. */
  lemma QuoteCloses(c: Core, o: OpenString, ch: char)
    requires Good(c) && c.open == Some(o) && o.escape == "" && ch != '\\'
    ensures Good(Step(c, ch))
    ensures ch == '"' ==> Step(c, ch).open.None?
    ensures ch != '"' ==> Step(c, ch) == WithOpen(c, Push(FlushHigh(o), ch))
  {
    StepIsGood(c, ch);
    if ch == '"' {
      CloseStringIsGood(TakeOpen(c), FlushHigh(o));
    }
  }

  /** At a character boundary, in step with `Repair`. */
  ghost predicate InStep(c: Core, inString: bool) {
    Good(c) && (c.done || (inString == c.open.Some? && (inString ==> c.open.value.escape == "")))
  }

  lemma ShortEscape(c: Core, o: OpenString, letter: char)
    requires Good(c) && c.open == Some(o) && o.escape == "" && SimpleEscape(letter).Some?
    ensures InStep(Feed(c, ['\\', letter]), true)
  {
    StepIsGood(c, '\\');
    FeedCons(c, '\\', [letter]);
    FeedOne(Step(c, '\\'), letter);
    assert ['\\', letter] == ['\\'] + [letter];
  }

  lemma LongEscape(c: Core, o: OpenString, h: string)
    requires Good(c) && c.open == Some(o) && o.escape == "" && IsHex4(h)
    ensures InStep(Feed(c, "\\u" + h), true)
  {
    FeedUnicodeEscape(c, o, h);
  }

  /** The same characters on both sides. */
  lemma SameStart(c: Core, kept: string, a: string, b: string)
    requires Good(c) && Feed(Feed(c, kept), a) == Settle(Feed(Feed(c, kept), b))
    ensures Feed(c, kept + a) == Settle(Feed(c, kept + b))
  {
    FeedConcat(c, kept, a);
    FeedConcat(c, kept, b);
  }

  lemma {:induction false} RepairInStep(c: Core, s: string, inString: bool)
    requires InStep(c, inString)
    ensures Feed(c, Repair(s, inString)) == Settle(Feed(c, s))
    decreases |s|
  {
    hide Step, StringChar, StructuralChar, Good, EscapeControl, IsUnicodeEscape;
    if s == [] || c.done {
      NothingToSettle(c, s, inString);
    } else if !inString || (s[0] != '\\' && !IsControl(s[0])) {
      assert s == [s[0]] + s[1..];
      var next := if !inString then s[0] == '"' else s[0] != '"';
      CopiedChar(c, s[0], inString);
      RepairInStep(Feed(c, [s[0]]), s[1..], next);
      SameStart(c, [s[0]], Repair(s[1..], next), s[1..]);
    } else if s[0] == '\\' {
      RepairBackslash(c, s);
    } else {
      assert s == [s[0]] + s[1..];
      EscapedControl(c, c.open.value, s[0]);
      CopiedChar(c, s[0], true);
      RepairInStep(Feed(c, [s[0]]), s[1..], true);
      FeedConcat(c, EscapeControl(s[0]), Repair(s[1..], true));
      FeedConcat(c, [s[0]], s[1..]);
    }
  }

  lemma NothingToSettle(c: Core, s: string, inString: bool)
    requires InStep(c, inString) && (s == [] || c.done)
    ensures Feed(c, Repair(s, inString)) == Settle(Feed(c, s))
  {
  }

  lemma CopiedChar(c: Core, ch: char, inString: bool)
    requires InStep(c, inString) && !c.done && (inString ==> ch != '\\')
    ensures InStep(Feed(c, [ch]), if !inString then ch == '"' else ch != '"')
  {
    hide Step;
    FeedOne(c, ch);
    if inString {
      QuoteCloses(c, c.open.value, ch);
    } else {
      QuoteOpens(c, ch);
    }
  }

  lemma {:induction false} RepairBackslash(c: Core, s: string)
    requires InStep(c, true) && !c.done && s != [] && s[0] == '\\'
    ensures Feed(c, Repair(s, true)) == Settle(Feed(c, s))
    decreases |s|, 0
  {
    hide Step, StringChar, StructuralChar, FlushHigh, Feed, Settle;
    var o := c.open.value;
    if IsUnicodeEscape(s) {
      assert s == "\\u" + s[2..6] + s[6..];
      LongEscape(c, o, s[2..6]);
      RepairInStep(Feed(c, "\\u" + s[2..6]), s[6..], true);
      SameStart(c, "\\u" + s[2..6], Repair(s[6..], true), s[6..]);
    } else if |s| > 1 && SimpleEscape(s[1]).Some? {
      assert s == ['\\', s[1]] + s[2..];
      ShortEscape(c, o, s[1]);
      RepairInStep(Feed(c, ['\\', s[1]]), s[2..], true);
      SameStart(c, ['\\', s[1]], Repair(s[2..], true), s[2..]);
    } else {
      var pending := WithOpen(c, o.(escape := "\\"));
      assert s == ['\\'] + s[1..];
      EscapedBackslash(c, o);
      PendingBackslash(c, o);
      InvalidEscape(c, o, s[1..]);
      RepairInStep(Feed(c, "\\\\"), s[1..], true);
      FeedConcat(c, "\\\\", Repair(s[1..], true));
      FeedConcat(c, ['\\'], s[1..]);
    }
  }

  lemma PendingBackslash(c: Core, o: OpenString)
    requires Good(c) && c.open == Some(o) && o.escape == ""
    ensures Feed(c, ['\\']) == WithOpen(c, o.(escape := "\\"))
  {
    FeedOne(c, '\\');
  }

  /** For every text, the parser reads the repaired text to the state it reaches
      on the original with a pending escape taken literally. */
  lemma RepairPreservesReading(json: string)
    ensures Feed(FRESH, Repair(json, false)) == Settle(Feed(FRESH, json))
  {
    RepairInStep(FRESH, json, false);
  }

  /** In particular the same root value, whenever the original reaches one. */
  lemma RepairPreservesRoot(json: string)
    ensures Feed(FRESH, Repair(json, false)).done <==> Feed(FRESH, json).done
    ensures Feed(FRESH, Repair(json, false)).root == Feed(FRESH, json).root
  {
    RepairPreservesReading(json);
  }

  // ---------------------------------------------------------------------------
  // Repairing twice
  // ---------------------------------------------------------------------------

  /** A repaired piece in front is kept as it is. */
  lemma {:induction false} RepairTwice(s: string, inString: bool)
    ensures Repair(Repair(s, inString), inString) == Repair(s, inString)
    decreases |s|
  {
    if s != [] {
      if !inString || (s[0] != '\\' && !IsControl(s[0])) {
        var next := if !inString then s[0] == '"' else s[0] != '"';
        RepairTwice(s[1..], next);
        KeptChar(s[0], Repair(s[1..], next), inString);
      } else if IsUnicodeEscape(s) {
        RepairTwice(s[6..], true);
        KeptUnicode(s[2..6], Repair(s[6..], true));
      } else if s[0] == '\\' && |s| > 1 && SimpleEscape(s[1]).Some? {
        RepairTwice(s[2..], true);
        KeptEscape(s[1], Repair(s[2..], true));
      } else if s[0] == '\\' {
        RepairTwice(s[1..], true);
        KeptEscape('\\', Repair(s[1..], true));
        assert ['\\', '\\'] == "\\\\";
      } else {
        RepairTwice(s[1..], true);
        KeptControl(s[0], Repair(s[1..], true));
      }
    }
  }

  lemma KeptChar(ch: char, t: string, inString: bool)
    requires inString ==> ch != '\\' && !IsControl(ch)
    ensures Repair([ch] + t, inString) == [ch] + Repair(t, if !inString then ch == '"' else ch != '"')
  {
    assert ([ch] + t)[1..] == t;
  }

  lemma KeptEscape(letter: char, t: string)
    requires SimpleEscape(letter).Some?
    ensures Repair(['\\', letter] + t, true) == ['\\', letter] + Repair(t, true)
  {
    assert (['\\', letter] + t)[2..] == t;
  }

  lemma KeptUnicode(h: string, t: string)
    requires IsHex4(h)
    ensures Repair("\\u" + h + t, true) == "\\u" + h + Repair(t, true)
  {
    var s := "\\u" + h + t;
    assert s[2..6] == h && s[6..] == t;
  }

  lemma KeptControl(ch: char, t: string)
    requires IsControl(ch)
    ensures Repair(EscapeControl(ch) + t, true) == EscapeControl(ch) + Repair(t, true)
  {
    if ch in [8 as char, 12 as char, '\n', '\r', '\t'] {
      var letter := EscapeControl(ch)[1];
      assert EscapeControl(ch) == ['\\', letter];
      KeptEscape(letter, t);
    } else {
      KeptUnicode("00" + [Nibble(ch as int / 16), Nibble(ch as int % 16)], t);
    }
  }

  // ---------------------------------------------------------------------------
  // What is repaired
  // ---------------------------------------------------------------------------

  /** Inside strings there is no bare control character, and every backslash starts
      an escape of section 7 of RFC 8259. */
  predicate LegalStrings(s: string, inString: bool)
    decreases |s|
  {
    if s == [] then true
    else if !inString then LegalStrings(s[1..], s[0] == '"')
    else if s[0] == '"' then LegalStrings(s[1..], false)
    else if s[0] == '\\' then
      |s| > 1 &&
      if s[1] == 'u' then |s| >= 6 && AllHex(s[2..6]) && LegalStrings(s[6..], true)
      else SimpleEscape(s[1]).Some? && LegalStrings(s[2..], true)
    else !IsControl(s[0]) && LegalStrings(s[1..], true)
  }

  lemma LegalEscape(letter: char, t: string)
    requires SimpleEscape(letter).Some?
    ensures LegalStrings(['\\', letter] + t, true) == LegalStrings(t, true)
  {
    assert (['\\', letter] + t)[2..] == t;
  }

  lemma LegalUnicode(h: string, t: string)
    requires IsHex4(h)
    ensures LegalStrings("\\u" + h + t, true) == LegalStrings(t, true)
  {
    var s := "\\u" + h + t;
    assert s[2..6] == h && s[6..] == t;
  }

  lemma LegalChar(ch: char, t: string, inString: bool)
    requires inString ==> ch != '\\' && !IsControl(ch)
    ensures LegalStrings([ch] + t, inString) == LegalStrings(t, if !inString then ch == '"' else ch != '"')
  {
    assert ([ch] + t)[1..] == t;
  }

  lemma LegalControl(ch: char, t: string)
    requires IsControl(ch)
    ensures LegalStrings(EscapeControl(ch) + t, true) == LegalStrings(t, true)
  {
    if ch in [8 as char, 12 as char, '\n', '\r', '\t'] {
      var letter := EscapeControl(ch)[1];
      assert EscapeControl(ch) == ['\\', letter];
      LegalEscape(letter, t);
    } else {
      LegalUnicode("00" + [Nibble(ch as int / 16), Nibble(ch as int % 16)], t);
    }
  }

  /** The strings of every repaired text are legal. */
  lemma {:induction false} RepairIsLegal(s: string, inString: bool)
    ensures LegalStrings(Repair(s, inString), inString)
    decreases |s|
  {
    hide LegalStrings, EscapeControl;
    if s == [] {
      NothingIsLegal(inString);
    } else if !inString || (s[0] != '\\' && !IsControl(s[0])) {
      var next := if !inString then s[0] == '"' else s[0] != '"';
      RepairIsLegal(s[1..], next);
      LegalChar(s[0], Repair(s[1..], next), inString);
    } else if IsUnicodeEscape(s) {
      RepairIsLegal(s[6..], true);
      LegalUnicode(s[2..6], Repair(s[6..], true));
    } else if s[0] == '\\' && |s| > 1 && SimpleEscape(s[1]).Some? {
      RepairIsLegal(s[2..], true);
      LegalEscape(s[1], Repair(s[2..], true));
    } else if s[0] == '\\' {
      RepairIsLegal(s[1..], true);
      LegalEscape('\\', Repair(s[1..], true));
      assert ['\\', '\\'] == "\\\\";
    } else {
      RepairIsLegal(s[1..], true);
      LegalControl(s[0], Repair(s[1..], true));
    }
  }

  lemma NothingIsLegal(inString: bool)
    ensures LegalStrings("", inString)
  {
  }

  lemma {:induction false} LegalIsKept(s: string, inString: bool)
    requires LegalStrings(s, inString)
    ensures Repair(s, inString) == s
    decreases |s|
  {
    if s != [] {
      if !inString || s[0] != '\\' {
        LegalIsKept(s[1..], if !inString then s[0] == '"' else s[0] != '"');
        assert s == [s[0]] + s[1..];
      } else if s[1] == 'u' {
        LegalIsKept(s[6..], true);
        assert s == "\\u" + s[2..6] + s[6..];
      } else {
        LegalIsKept(s[2..], true);
        assert s == ['\\', s[1]] + s[2..];
      }
    }
  }

  /** Repairing changes a text if and only if something in its strings is illegal. */
  lemma RepairedExactly(json: string)
    ensures LegalStrings(Repair(json, false), false)
    ensures Repair(json, false) == json <==> LegalStrings(json, false)
  {
    RepairIsLegal(json, false);
    if LegalStrings(json, false) {
      LegalIsKept(json, false);
    }
  }
}
