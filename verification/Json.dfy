/** JSON values as the streaming parser builds them, and the weight that the
    parser charges for copying one. */
module Json {
  import opened Options

  /** An integer in the i64/u64 range, or any other finite number, kept as its
      literal: rounding to a double is not modelled. */
  datatype Num = Int(i: int) | Float(literal: string)

  datatype Json =
    | Null
    | Bool(b: bool)
    | Number(n: Num)
    | String(s: string)
    | Array(items: seq<Json>)
    | Object(entries: seq<Entry>)

  /** Objects list their entries in the order in which the keys first appeared. */
  datatype Entry = Entry(key: string, value: Json)

  // ---------------------------------------------------------------------------
  // Byte lengths (strings are measured in UTF-8 bytes)
  // ---------------------------------------------------------------------------

  function Utf8Width(c: char): (n: nat)
    ensures 1 <= n <= 4
  {
    if c as int < 0x80 then 1 else if c as int < 0x800 then 2 else if c as int < 0x1_0000 then 3 else 4
  }

  function Bytes(s: string): (n: nat)
    ensures |s| <= n <= 4 * |s|
  {
    if s == [] then 0 else Utf8Width(s[0]) + Bytes(s[1..])
  }

  lemma {:induction false} BytesConcat(a: string, b: string)
    ensures Bytes(a + b) == Bytes(a) + Bytes(b)
  {
    if a == [] {
      assert a + b == b;
    } else {
      assert (a + b)[1..] == a[1..] + b;
      BytesConcat(a[1..], b);
    }
  }

  // ---------------------------------------------------------------------------
  // Object entries as a finite map
  // ---------------------------------------------------------------------------

  function Lookup(es: seq<Entry>, k: string): Option<Json> {
    if es == [] then None
    else if es[0].key == k then Some(es[0].value)
    else Lookup(es[1..], k)
  }

  function Insert(es: seq<Entry>, k: string, v: Json): seq<Entry> {
    if es == [] then [Entry(k, v)]
    else if es[0].key == k then [Entry(k, v)] + es[1..]
    else [es[0]] + Insert(es[1..], k, v)
  }

  ghost predicate DistinctKeys(es: seq<Entry>) {
    forall i, j :: 0 <= i < j < |es| ==> es[i].key != es[j].key
  }

  /** Insertion behaves as on a map: it sets one key and leaves the others. */
  lemma {:induction false} InsertIsMapUpdate(es: seq<Entry>, k: string, v: Json, other: string)
    ensures Lookup(Insert(es, k, v), other) == if other == k then Some(v) else Lookup(es, other)
  {
    if es != [] && es[0].key != k {
      InsertIsMapUpdate(es[1..], k, v, other);
      assert Insert(es, k, v)[1..] == Insert(es[1..], k, v);
    } else if es != [] {
      assert Insert(es, k, v)[1..] == es[1..];
    }
  }

  /** A key that is not there yet is appended. */
  lemma {:induction false} InsertFresh(es: seq<Entry>, k: string, v: Json)
    requires forall i :: 0 <= i < |es| ==> es[i].key != k
    ensures Insert(es, k, v) == es + [Entry(k, v)]
  {
    if es != [] {
      assert es[0].key != k;
      InsertFresh(es[1..], k, v);
      assert es == [es[0]] + es[1..];
    }
  }

  lemma {:induction false} InsertKeys(es: seq<Entry>, k: string, v: Json)
    ensures forall e :: e in Insert(es, k, v) ==> e.key == k || e in es
  {
    if es != [] && es[0].key != k {
      InsertKeys(es[1..], k, v);
    }
  }

  /** Insertion keeps the keys of an object distinct. */
  lemma {:induction false} InsertDistinct(es: seq<Entry>, k: string, v: Json)
    requires DistinctKeys(es)
    ensures DistinctKeys(Insert(es, k, v))
  {
    if es != [] && es[0].key != k {
      var rest := Insert(es[1..], k, v);
      InsertDistinct(es[1..], k, v);
      InsertKeys(es[1..], k, v);
      forall j | 0 <= j < |rest|
        ensures rest[j].key != es[0].key
      {
        assert rest[j] in rest;
      }
    }
  }

  // ---------------------------------------------------------------------------
  // Clone weight
  // ---------------------------------------------------------------------------

  /** Nodes and bytes copied when a closed value is cloned. */
  function Weight(v: Json): (w: nat)
    ensures w >= 1
  {
    match v
    case String(s) => 1 + Bytes(s)
    case Array(items) => 1 + ItemsWeight(items)
    case Object(entries) => 1 + EntriesWeight(entries)
    case _ => 1
  }

  function ItemsWeight(items: seq<Json>): nat {
    if items == [] then 0 else Weight(items[0]) + ItemsWeight(items[1..])
  }

  function EntriesWeight(es: seq<Entry>): nat {
    if es == [] then 0 else 1 + Bytes(es[0].key) + Weight(es[0].value) + EntriesWeight(es[1..])
  }

  lemma {:induction false} ItemsWeightPush(items: seq<Json>, v: Json)
    ensures ItemsWeight(items + [v]) == ItemsWeight(items) + Weight(v)
  {
    if items == [] {
      assert items + [v] == [v];
    } else {
      assert (items + [v])[1..] == items[1..] + [v];
      ItemsWeightPush(items[1..], v);
    }
  }

  /** Weight of what an insertion throws away: the entry already stored under the key. */
  function DisplacedWeight(es: seq<Entry>, k: string): nat {
    match Lookup(es, k)
    case Some(previous) => 1 + Bytes(k) + Weight(previous)
    case None => 0
  }

  /** The exact effect of an insertion on the weight of an object. */
  lemma {:induction false} InsertWeight(es: seq<Entry>, k: string, v: Json)
    ensures EntriesWeight(es) >= DisplacedWeight(es, k)
    ensures EntriesWeight(Insert(es, k, v))
         == EntriesWeight(es) - DisplacedWeight(es, k) + 1 + Bytes(k) + Weight(v)
  {
    if es == [] {
    } else if es[0].key == k {
      assert Insert(es, k, v)[1..] == es[1..];
    } else {
      InsertWeight(es[1..], k, v);
      assert Insert(es, k, v)[1..] == Insert(es[1..], k, v);
    }
  }
}
