/** The concrete syntax of JSON (RFC 8259, sections 2 to 7) and the value a text
    denotes: any white space, any choice of escapes, any number the parser's
    number reader accepts. */
module JsonText {
  import opened Options
  import opened Json
  import opened Numbers
  import opened StreamingCore

  /** One character of a string as it is written. */
  datatype StrItem =
    | Raw(c: char)
    | Short(letter: char)
    | Unicode(hex: string)
    | Pair(high: string, low: string)

  datatype Doc =
    | Str(items: seq<StrItem>)
    | Scalar(token: string)
    | Arr(elems: seq<Elem>, blank: string)
    | Obj(members: seq<Member>, blank: string)

  /** An array element with the white space around it. */
  datatype Elem = Elem(before: string, doc: Doc, after: string)

  /** `before "key" beforeColon : beforeValue value after` */
  datatype Member = Member(
    before: string, key: seq<StrItem>, beforeColon: string, beforeValue: string, doc: Doc, after: string)

  predicate IsBlank(s: string) {
    forall i :: 0 <= i < |s| ==> s[i] == ' ' || s[i] == '\t' || s[i] == '\n' || s[i] == '\r'
  }

  predicate IsHex4(s: string) { |s| == 4 && AllHex(s) }

  predicate ValidItem(it: StrItem) {
    match it
    case Raw(c) => c != '"' && c != '\\'
    case Short(e) => SimpleEscape(e).Some?
    case Unicode(h) => IsHex4(h) && !IsHigh(Hex4(h)) && !IsLow(Hex4(h))
    case Pair(h, l) => IsHex4(h) && IsHex4(l) && IsHigh(Hex4(h)) && IsLow(Hex4(l))
  }

  predicate ValidItems(items: seq<StrItem>) { forall i :: 0 <= i < |items| ==> ValidItem(items[i]) }

  predicate ValidDoc(d: Doc) {
    match d
    case Str(items) => ValidItems(items)
    case Scalar(token) => CompleteScalar(token).Some?
    case Arr(elems, blank) => IsBlank(blank) && ValidElems(elems)
    case Obj(members, blank) => IsBlank(blank) && ValidMembers(members)
  }

  predicate ValidElems(es: seq<Elem>) {
    es == [] || (IsBlank(es[0].before) && IsBlank(es[0].after) && ValidDoc(es[0].doc) && ValidElems(es[1..]))
  }

  predicate ValidMembers(ms: seq<Member>) {
    ms == []
    || (IsBlank(ms[0].before) && IsBlank(ms[0].beforeColon) && IsBlank(ms[0].beforeValue) && IsBlank(ms[0].after)
        && ValidItems(ms[0].key) && ValidDoc(ms[0].doc) && ValidMembers(ms[1..]))
  }

  /** The texts of the grammar: outside strings only literals and numbers, and a
      number fits a double. */
  ghost predicate GrammarDoc(d: Doc)
    decreases d
  {
    match d
    case Str(items) => ValidItems(items)
    case Scalar(token) => IsLiteral(token) || IsGrammarNumber(token)
    case Arr(elems, blank) =>
      && IsBlank(blank)
      && forall e | e in elems :: IsBlank(e.before) && IsBlank(e.after) && GrammarDoc(e.doc)
    case Obj(members, blank) =>
      && IsBlank(blank)
      && forall m | m in members ::
           && IsBlank(m.before) && IsBlank(m.beforeColon) && IsBlank(m.beforeValue) && IsBlank(m.after)
           && ValidItems(m.key) && GrammarDoc(m.doc)
  }

  predicate IsLiteral(token: string) { token == "true" || token == "false" || token == "null" }

  ghost predicate IsGrammarNumber(token: string) {
    exists n :: ValidNumber(n) && IsFiniteNumber(n) && token == NumberString(n)
  }

  /** The parser's own reader accepts every one of them. */
  lemma {:induction false} GrammarIsValid(d: Doc)
    requires GrammarDoc(d)
    ensures ValidDoc(d)
    decreases d, 1
  {
    match d
    case Str(_) =>
    case Scalar(token) =>
      if !IsLiteral(token) {
        var n :| ValidNumber(n) && IsFiniteNumber(n) && token == NumberString(n);
        GrammarNumberReads(n);
      }
    case Arr(elems, _) => GrammarElemsValid(elems);
    case Obj(members, _) => GrammarMembersValid(members);
  }

  lemma {:induction false} GrammarElemsValid(es: seq<Elem>)
    requires forall e | e in es :: IsBlank(e.before) && IsBlank(e.after) && GrammarDoc(e.doc)
    ensures ValidElems(es)
    decreases es, 0
  {
    if es != [] {
      assert es[0] in es && forall e | e in es[1..] :: e in es;
      GrammarIsValid(es[0].doc);
      GrammarElemsValid(es[1..]);
    }
  }

  lemma {:induction false} GrammarMembersValid(ms: seq<Member>)
    requires forall m | m in ms ::
      && IsBlank(m.before) && IsBlank(m.beforeColon) && IsBlank(m.beforeValue) && IsBlank(m.after)
      && ValidItems(m.key) && GrammarDoc(m.doc)
    ensures ValidMembers(ms)
    decreases ms, 0
  {
    if ms != [] {
      assert ms[0] in ms && forall m | m in ms[1..] :: m in ms;
      GrammarIsValid(ms[0].doc);
      GrammarMembersValid(ms[1..]);
    }
  }

  // ---------------------------------------------------------------------------
  // Text
  // ---------------------------------------------------------------------------

  function ItemText(it: StrItem): string {
    match it
    case Raw(c) => [c]
    case Short(e) => ['\\', e]
    case Unicode(h) => "\\u" + h
    case Pair(h, l) => ("\\u" + h) + ("\\u" + l)
  }

  function ItemsText(items: seq<StrItem>): string {
    if items == [] then "" else ItemText(items[0]) + ItemsText(items[1..])
  }

  function Quoted(items: seq<StrItem>): string { "\"" + (ItemsText(items) + "\"") }

  function Text(d: Doc): string {
    match d
    case Str(items) => Quoted(items)
    case Scalar(token) => token
    case Arr(elems, blank) => "[" + (if elems == [] then blank + "]" else ElemsText(elems))
    case Obj(members, blank) => "{" + (if members == [] then blank + "}" else MembersText(members))
  }

  /** Elements, the commas between them, and the closing bracket. */
  function ElemsText(es: seq<Elem>): string
    requires es != []
  {
    es[0].before + (Text(es[0].doc) + (es[0].after + (if |es| == 1 then "]" else "," + ElemsText(es[1..]))))
  }

  function KeyText(m: Member): string { Quoted(m.key) + (m.beforeColon + (":" + m.beforeValue)) }

  function MembersText(ms: seq<Member>): string
    requires ms != []
  {
    ms[0].before + (KeyText(ms[0])
      + (Text(ms[0].doc) + (ms[0].after + (if |ms| == 1 then "}" else "," + MembersText(ms[1..])))))
  }

  // ---------------------------------------------------------------------------
  // Meaning
  // ---------------------------------------------------------------------------

  function ItemChar(it: StrItem): char
    requires ValidItem(it)
  {
    match it
    case Raw(c) => c
    case Short(e) => SimpleEscape(e).value
    case Unicode(h) => Hex4(h) as char
    case Pair(h, l) => Combine(Hex4(h), Hex4(l))
  }

  function ItemsValue(items: seq<StrItem>): string
    requires ValidItems(items)
  {
    if items == [] then "" else [ItemChar(items[0])] + ItemsValue(items[1..])
  }

  function Denote(d: Doc): Json
    requires ValidDoc(d)
    decreases d
  {
    match d
    case Str(items) => String(ItemsValue(items))
    case Scalar(token) => CompleteScalar(token).value
    case Arr(elems, _) => Array(DenoteElems(elems))
    case Obj(members, _) => Object(DenoteMembers([], members))
  }

  function DenoteElems(es: seq<Elem>): seq<Json>
    requires ValidElems(es)
    decreases es
  {
    if es == [] then [] else [Denote(es[0].doc)] + DenoteElems(es[1..])
  }

  /** Members in order on top of `entries`; a repeated key keeps its last value. */
  function DenoteMembers(entries: seq<Entry>, ms: seq<Member>): seq<Entry>
    requires ValidMembers(ms)
    decreases ms
  {
    if ms == [] then entries
    else DenoteMembers(Insert(entries, ItemsValue(ms[0].key), Denote(ms[0].doc)), ms[1..])
  }

  // ---------------------------------------------------------------------------
  // Compact printing
  // ---------------------------------------------------------------------------

  /** How serde_json writes one character of a string. */
  function PrintChar(c: char): StrItem
  {
    if c == '"' then Short('"')
    else if c == '\\' then Short('\\')
    else if c == 8 as char then Short('b')
    else if c == 12 as char then Short('f')
    else if c == '\n' then Short('n')
    else if c == '\r' then Short('r')
    else if c == '\t' then Short('t')
    else if c as int < 0x20 then Unicode("00" + [Nibble(c as int / 16), Nibble(c as int % 16)])
    else Raw(c)
  }

  function Nibble(n: int): char
    requires 0 <= n < 16
  {
    if n < 10 then (n + '0' as int) as char else (n - 10 + 'a' as int) as char
  }

  lemma PrintCharDenotes(c: char)
    ensures ValidItem(PrintChar(c)) && ItemChar(PrintChar(c)) == c
  {
  }

  function PrintString(s: string): (items: seq<StrItem>)
    ensures |items| == |s|
  {
    if s == [] then [] else [PrintChar(s[0])] + PrintString(s[1..])
  }

  lemma {:induction false} PrintStringDenotes(s: string)
    ensures ValidItems(PrintString(s)) && ItemsValue(PrintString(s)) == s
  {
    if s != [] {
      PrintCharDenotes(s[0]);
      PrintStringDenotes(s[1..]);
      var items := PrintString(s);
      assert items[1..] == PrintString(s[1..]);
      forall i | 0 <= i < |items|
        ensures ValidItem(items[i])
      {
        if i > 0 {
          assert items[i] == items[1..][i - 1];
        }
      }
      assert s == [s[0]] + s[1..];
    }
  }

  function PrintNat(n: nat): (s: string)
    ensures s != [] && AllDigits(s) && Decimal(s) == n
  {
    var last := (n % 10 + '0' as int) as char;
    if n < 10 then
      assert [last][..0] == "";
      [last]
    else
      var s := PrintNat(n / 10) + [last];
      assert s[..|s| - 1] == PrintNat(n / 10);
      s
  }

  function PrintInt(i: int): string { if i < 0 then "-" + PrintNat(-i) else PrintNat(i) }

  predicate InRange(i: int) { -0x8000_0000_0000_0000 <= i < 0x1_0000_0000_0000_0000 }

  lemma PrintIntDenotes(i: int)
    requires InRange(i)
    ensures CompleteScalar(PrintInt(i)) == Some(Number(Int(i)))
  {
    var s := PrintInt(i);
    if i < 0 {
      assert s[1..] == PrintNat(-i);
    } else {
      assert s[0] == PrintNat(i)[0] && IsDigit(s[0]);
    }
    assert IsDigit(s[0]) || s[0] == '-';
    assert ParseInteger(s) == Some(i);
  }

  /** Values whose numbers are integers in range and whose objects are maps. */
  ghost predicate Printable(v: Json) {
    match v
    case Number(n) => n.Int? && InRange(n.i)
    case Array(items) => forall i :: 0 <= i < |items| ==> Printable(items[i])
    case Object(entries) => DistinctKeys(entries) && forall i :: 0 <= i < |entries| ==> Printable(entries[i].value)
    case _ => true
  }

  /** The compact serialization of a value, as a concrete text. */
  function Print(v: Json): Doc
    decreases v
  {
    match v
    case Null => Scalar("null")
    case Bool(b) => Scalar(if b then "true" else "false")
    case Number(n) => Scalar(match n case Int(i) => PrintInt(i) case Float(l) => l)
    case String(s) => Str(PrintString(s))
    case Array(items) => Arr(PrintItems(items), "")
    case Object(entries) => Obj(PrintEntries(entries), "")
  }

  function PrintItems(items: seq<Json>): (es: seq<Elem>)
    ensures |es| == |items|
    decreases items
  {
    if items == [] then [] else [Elem("", Print(items[0]), "")] + PrintItems(items[1..])
  }

  function PrintEntries(entries: seq<Entry>): (ms: seq<Member>)
    ensures |ms| == |entries|
    decreases entries
  {
    if entries == [] then []
    else [Member("", PrintString(entries[0].key), "", "", Print(entries[0].value), "")] + PrintEntries(entries[1..])
  }

  /** Printing is a right inverse of reading: the text denotes the value. */
  lemma {:induction false} PrintDenotes(v: Json)
    requires Printable(v)
    ensures ValidDoc(Print(v)) && Denote(Print(v)) == v
    decreases v, 1
  {
    match v
    case Null => assert Print(v) == Scalar("null");
    case Bool(b) => assert Print(v) == Scalar(if b then "true" else "false");
    case Number(n) => PrintIntDenotes(n.i);
    case String(s) => PrintStringDenotes(s);
    case Array(_) => PrintArrayDenotes(v);
    case Object(_) => PrintObjectDenotes(v);
  }

  lemma {:induction false} PrintArrayDenotes(v: Json)
    requires v.Array? && Printable(v)
    ensures ValidDoc(Print(v)) && Denote(Print(v)) == v
    decreases v, 0
  {
    hide ValidElems, DenoteElems, PrintItems;
    PrintItemsDenotes(v.items);
    assert Print(v) == Arr(PrintItems(v.items), "");
  }

  lemma {:induction false} PrintObjectDenotes(v: Json)
    requires v.Object? && Printable(v)
    ensures ValidDoc(Print(v)) && Denote(Print(v)) == v
    decreases v, 0
  {
    hide ValidMembers, DenoteMembers, PrintEntries;
    assert [] + v.entries == v.entries;
    PrintEntriesDenotes([], v.entries);
    assert Print(v) == Obj(PrintEntries(v.entries), "");
  }

  lemma {:induction false} PrintItemsDenotes(items: seq<Json>)
    requires forall i :: 0 <= i < |items| ==> Printable(items[i])
    ensures ValidElems(PrintItems(items)) && DenoteElems(PrintItems(items)) == items
    decreases items
  {
    if items != [] {
      PrintDenotes(items[0]);
      PrintItemsDenotes(items[1..]);
      assert PrintItems(items)[1..] == PrintItems(items[1..]);
      assert items == [items[0]] + items[1..];
    }
  }

  lemma {:induction false} PrintEntriesDenotes(before: seq<Entry>, entries: seq<Entry>)
    requires DistinctKeys(before + entries)
    requires forall i :: 0 <= i < |entries| ==> Printable(entries[i].value)
    ensures ValidMembers(PrintEntries(entries))
    ensures DenoteMembers(before, PrintEntries(entries)) == before + entries
    decreases entries
  {
    if entries == [] {
      assert before + entries == before;
    } else {
      var e := entries[0];
      PrintStringDenotes(e.key);
      PrintDenotes(e.value);
      assert before + [e] + entries[1..] == before + entries;
      PrintEntriesDenotes(before + [e], entries[1..]);
      assert PrintEntries(entries)[1..] == PrintEntries(entries[1..]);
      forall i | 0 <= i < |before|
        ensures before[i].key != e.key
      {
        assert (before + entries)[i] == before[i] && (before + entries)[|before|] == e;
      }
      InsertFresh(before, e.key, e.value);
    }
  }
}
