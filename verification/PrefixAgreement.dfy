/** How a snapshot compares with the value of the whole text, when no object
    repeats a key: what is over is exact, and only the one open string, number
    or literal is cut. */
module PrefixAgreement {
  import opened Options
  import opened Json
  import opened StreamingCore
  import opened JsonText
  import opened StreamingPrefix

  // ---------------------------------------------------------------------------
  // Texts without repeated keys
  // ---------------------------------------------------------------------------

  predicate UniqueDoc(d: Doc)
    requires ValidDoc(d)
    decreases d
  {
    match d
    case Arr(elems, _) => UniqueElems(elems)
    case Obj(members, _) => UniqueMembers({}, members)
    case _ => true
  }

  predicate UniqueElems(es: seq<Elem>)
    requires ValidElems(es)
    decreases es
  {
    es == [] || (UniqueDoc(es[0].doc) && UniqueElems(es[1..]))
  }

  predicate UniqueMembers(used: set<string>, ms: seq<Member>)
    requires ValidMembers(ms)
    decreases ms
  {
    ms == []
    || (ItemsValue(ms[0].key) !in used && UniqueDoc(ms[0].doc)
        && UniqueMembers(used + {ItemsValue(ms[0].key)}, ms[1..]))
  }

  // ---------------------------------------------------------------------------
  // Positions
  // ---------------------------------------------------------------------------

  /** Where the text of a value begins, counted from the opening bracket. */
  function ElemStart(es: seq<Elem>, i: nat): nat
    requires i < |es|
  {
    if i == 0 then |es[0].before|
    else |es[0].before| + |Text(es[0].doc)| + |es[0].after| + 1 + ElemStart(es[1..], i - 1)
  }

  function MemberStart(ms: seq<Member>, i: nat): nat
    requires i < |ms|
  {
    if i == 0 then |ms[0].before| + |KeyText(ms[0])|
    else
      |ms[0].before| + |KeyText(ms[0])| + |Text(ms[0].doc)| + |ms[0].after| + 1 + MemberStart(ms[1..], i - 1)
  }

  lemma {:induction false} ValidElemAt(es: seq<Elem>, i: nat)
    requires ValidElems(es) && i < |es|
    ensures ValidDoc(es[i].doc)
  {
    if i > 0 {
      ValidElemAt(es[1..], i - 1);
    }
  }

  lemma {:induction false} ValidMemberAt(ms: seq<Member>, i: nat)
    requires ValidMembers(ms) && i < |ms|
    ensures ValidItems(ms[i].key) && ValidDoc(ms[i].doc)
  {
    if i > 0 {
      ValidMemberAt(ms[1..], i - 1);
    }
  }

  // ---------------------------------------------------------------------------
  // Agreement
  // ---------------------------------------------------------------------------

  /** What is shown after `k` characters agrees with the value: from its first
      character on, a string shows a beginning of itself, a literal itself, a
      number the number typed so far, and a container itself with the members it
      has come to; a string or container that is over is shown whole. */
  ghost predicate Agrees(p: Option<Json>, d: Doc, k: nat)
    requires ValidDoc(d) && k <= |Text(d)|
    decreases d, 0
  {
    if k == 0 then p == None
    else
      && (Over(d, k) ==> p == Some(Denote(d)))
      && match d
         case Str(items) => p.Some? && p.value.String? && p.value.s <= ItemsValue(items)
         case Scalar(token) => p == if IsLiteral(token) then CompleteScalar(token) else NumberSoFar(token[..k])
         case Arr(elems, _) => p.Some? && p.value.Array? && ElemsAgree(p.value.items, elems, k - 1)
         case Obj(members, _) => p.Some? && p.value.Object? && MembersAgree(p.value.entries, members, k - 1)
  }

  /** Element by element: one that is over is exact, the open one agrees and is
      the last, and those that have not begun are not there. */
  ghost predicate ElemsAgree(xs: seq<Json>, es: seq<Elem>, k: nat)
    requires ValidElems(es)
    decreases es
  {
    |xs| <= |es|
    && forall i | 0 <= i < |es| ::
         ValidElemAt(es, i);
         ElemAgrees(xs, i, es[i].doc, k - ElemStart(es, i))
  }

  ghost predicate ElemAgrees(xs: seq<Json>, i: nat, d: Doc, read: int)
    requires ValidDoc(d)
    decreases d, 1
  {
    if read <= 0 then |xs| <= i
    else if Over(d, read) then i < |xs| && xs[i] == Denote(d)
    else |xs| <= i + 1 && Agrees(if i < |xs| then Some(xs[i]) else None, d, read)
  }

  ghost predicate MembersAgree(es: seq<Entry>, ms: seq<Member>, k: nat)
    requires ValidMembers(ms)
    decreases ms
  {
    |es| <= |ms|
    && forall i | 0 <= i < |ms| ::
         ValidMemberAt(ms, i);
         MemberAgrees(es, i, ItemsValue(ms[i].key), ms[i].doc, k - MemberStart(ms, i))
  }

  ghost predicate MemberAgrees(es: seq<Entry>, i: nat, key: string, d: Doc, read: int)
    requires ValidDoc(d)
    decreases d, 1
  {
    if read <= 0 then |es| <= i
    else if Over(d, read) then i < |es| && es[i] == Entry(key, Denote(d))
    else
      && |es| <= i + 1 && (i < |es| ==> es[i].key == key)
      && Agrees(if i < |es| then Some(es[i].value) else None, d, read)
  }

  lemma {:induction false} ItemsSoFarIsPrefix(items: seq<StrItem>, k: nat)
    requires ValidItems(items)
    ensures ItemsSoFar(items, k) <= ItemsValue(items)
  {
    if items != [] && k >= |ItemText(items[0])| {
      ItemsSoFarIsPrefix(items[1..], k - |ItemText(items[0])|);
    }
  }

  lemma {:induction false} ShownAgrees(d: Doc, k: nat)
    requires ValidDoc(d) && UniqueDoc(d) && k <= |Text(d)|
    ensures Agrees(Shown(d, k), d, k)
    decreases d
  {
    hide CompleteScalar, PendingScalar, NumberSoFar, ElemsAgree, MembersAgree;
    if k > 0 {
      if Over(d, k) {
        ShownAtEnd(d);
      }
      match d
      case Str(items) => ItemsSoFarIsPrefix(items, k - 1);
      case Scalar(token) => PendingShows(token, k);
      case Arr(elems, _) => ShownElemsAgree(elems, k - 1);
      case Obj(members, _) =>
        var rest := ShownMembersAgree({}, [], members, k - 1);
        assert [] + rest == rest;
    }
  }

  lemma {:induction false} ShownElemsAgree(es: seq<Elem>, k: nat)
    requires ValidElems(es) && UniqueElems(es)
    ensures ElemsAgree(ShownElems(es, k), es, k)
    decreases es
  {
    hide Agrees, Over, Shown, Text, Denote;
    if es != [] {
      var e := es[0];
      var read := k - |e.before|;
      var xs := ShownElems(es, k);
      if read > 0 && !Over(e.doc, read) {
        OpenIsShort(e.doc, read);
        ShownAgrees(e.doc, read);
      }
      var left := read - |Text(e.doc)| - |e.after| - 1;
      if read > 0 && Over(e.doc, read) && left >= 0 {
        ShownElemsAgree(es[1..], left);
      }
      forall i | 0 <= i < |es|
        ensures ValidDoc(es[i].doc) && ElemAgrees(xs, i, es[i].doc, k - ElemStart(es, i))
      {
        ValidElemAt(es, i);
        if i > 0 {
          if read > 0 && Over(e.doc, read) && left >= 0 {
            assert ElemAgrees(xs[1..], i - 1, es[1..][i - 1].doc, left - ElemStart(es[1..], i - 1));
          } else {
            OpenIsShort(e.doc, read);
          }
        }
      }
    }
  }

  lemma OpenIsShort(d: Doc, read: int)
    ensures !Over(d, read) ==> read <= |Text(d)|
  {
  }

  lemma {:induction false} ShownMembersAgree(used: set<string>, entries: seq<Entry>, ms: seq<Member>, k: nat)
    returns (rest: seq<Entry>)
    requires ValidMembers(ms) && UniqueMembers(used, ms)
    requires forall i :: 0 <= i < |entries| ==> entries[i].key in used
    ensures ShownMembers(entries, ms, k) == entries + rest && MembersAgree(rest, ms, k)
    decreases ms
  {
    hide Agrees, Over, Shown, Text, Denote, KeyText, ItemsValue, UniqueDoc;
    rest := [];
    if ms == [] {
      assert entries + rest == entries;
    } else {
      var m := ms[0];
      var key := ItemsValue(m.key);
      var read := k - |m.before| - |KeyText(m)|;
      var left := read - |Text(m.doc)| - |m.after| - 1;
      var e := Entry(key, Denote(m.doc));
      var further := [];
      if read > 0 {
        if !Over(m.doc, read) {
          OpenIsShort(m.doc, read);
          ShownAgrees(m.doc, read);
          var shown := Shown(m.doc, read);
          if shown.Some? {
            InsertFresh(entries, key, shown.value);
            rest := [Entry(key, shown.value)];
          }
        } else {
          InsertFresh(entries, key, e.value);
          if left >= 0 {
            further := ShownMembersAgree(used + {key}, entries + [e], ms[1..], left);
            assert entries + [e] + further == entries + ([e] + further);
          }
          rest := [e] + further;
        }
      }
      assert rest == [] ==> entries + rest == entries;
      forall i | 0 <= i < |ms|
        ensures ValidItems(ms[i].key) && ValidDoc(ms[i].doc)
        ensures MemberAgrees(rest, i, ItemsValue(ms[i].key), ms[i].doc, k - MemberStart(ms, i))
      {
        ValidMemberAt(ms, i);
        if i > 0 {
          if read > 0 && Over(m.doc, read) && left >= 0 {
            assert rest[1..] == further;
            assert MemberAgrees(
              further, i - 1, ItemsValue(ms[1..][i - 1].key), ms[1..][i - 1].doc, left - MemberStart(ms[1..], i - 1));
          } else {
            OpenIsShort(m.doc, read);
          }
        }
      }
    }
  }

  // ---------------------------------------------------------------------------
  // Every prefix
  // ---------------------------------------------------------------------------

  /** After any prefix of a text without repeated keys, the snapshot is nothing
      before the first character of the value, and from then on agrees with it. */
  lemma PrefixApproximation(before: string, d: Doc, k: nat)
    requires IsBlank(before) && ValidDoc(d) && UniqueDoc(d) && k <= |before| + |Text(d)|
    ensures var p := Snapshot(Feed(FRESH, (before + Text(d))[..k]));
      if k <= |before| then p == None else Agrees(p, d, k - |before|)
  {
    SnapshotIsShown(before, d, k);
    if k > |before| {
      ShownAgrees(d, k - |before|);
    }
  }

  lemma {:induction false} PrintIsUnique(v: Json)
    requires Printable(v)
    ensures ValidDoc(Print(v)) && UniqueDoc(Print(v))
    decreases v
  {
    PrintDenotes(v);
    match v
    case Array(items) => PrintItemsUnique(items);
    case Object(entries) => PrintEntriesUnique({}, entries);
    case _ =>
  }

  lemma {:induction false} PrintItemsUnique(items: seq<Json>)
    requires forall i :: 0 <= i < |items| ==> Printable(items[i])
    ensures ValidElems(PrintItems(items)) && UniqueElems(PrintItems(items))
    decreases items
  {
    if items != [] {
      PrintIsUnique(items[0]);
      PrintItemsUnique(items[1..]);
      assert PrintItems(items)[1..] == PrintItems(items[1..]);
    }
  }

  lemma {:induction false} PrintEntriesUnique(used: set<string>, entries: seq<Entry>)
    requires DistinctKeys(entries) && forall i :: 0 <= i < |entries| ==> Printable(entries[i].value)
    requires forall i :: 0 <= i < |entries| ==> entries[i].key !in used
    ensures ValidMembers(PrintEntries(entries)) && UniqueMembers(used, PrintEntries(entries))
    decreases entries
  {
    if entries != [] {
      PrintIsUnique(entries[0].value);
      PrintStringDenotes(entries[0].key);
      forall i | 0 <= i < |entries[1..]|
        ensures entries[1..][i].key !in used + {entries[0].key}
      {
        assert entries[1..][i] == entries[i + 1];
      }
      PrintEntriesUnique(used + {entries[0].key}, entries[1..]);
      assert PrintEntries(entries)[1..] == PrintEntries(entries[1..]);
    }
  }

  /** The same for the serialization of a value, cut after any number of characters. */
  lemma SerializationPrefix(v: Json, k: nat)
    requires Printable(v) && k <= |Text(Print(v))|
    ensures ValidDoc(Print(v)) && Denote(Print(v)) == v
    ensures Agrees(Snapshot(Feed(FRESH, Text(Print(v))[..k])), Print(v), k)
  {
    PrintIsUnique(v);
    PrintDenotes(v);
    PrefixApproximation("", Print(v), k);
    assert "" + Text(Print(v)) == Text(Print(v));
  }
}
