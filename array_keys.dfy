/** `normalizeArrayKeys`: rebuild a (possibly nested) PHP array with every key trimmed.
    The same function appears as `Utils::normalizeArrayKeys` and as a method of the
    `index.php` Middleware; both are modelled by this one module.

    A PHP array is an ordered list of key/value items with distinct keys. Writing
    `$a[$k] = $v` overwrites the value of an existing key where it stands, and appends
    a new key at the end. */
module ArrayKeys {
  import opened Wrappers
  import opened Php

  datatype Value = Scalar(text: string) | Array(items: seq<Item>)
  datatype Item = Item(key: string, value: Value)

  function Keys(items: seq<Item>): set<string> {
    set i | 0 <= i < |items| :: items[i].key
  }

  predicate UniqueKeys(items: seq<Item>) {
    forall i, j :: 0 <= i < j < |items| ==> items[i].key != items[j].key
  }

  /** `$a[$k]`, null when the key is absent. */
  function Lookup(items: seq<Item>, k: string): Option<Value> {
    if items == [] then None
    else if items[0].key == k then Some(items[0].value)
    else Lookup(items[1..], k)
  }

  /** The value of the last item with key `k`, if any. */
  function LastValue(items: seq<Item>, k: string): Option<Value> {
    if items == [] then None
    else if items[|items| - 1].key == k then Some(items[|items| - 1].value)
    else LastValue(items[..|items| - 1], k)
  }

  lemma KeysCons(x: Item, items: seq<Item>)
    ensures Keys([x] + items) == {x.key} + Keys(items)
  {
    var s := [x] + items;
    forall k | k in Keys(s) ensures k in {x.key} + Keys(items) {
      var i :| 0 <= i < |s| && s[i].key == k;
      if i > 0 { assert items[i - 1].key == k; }
    }
    forall k | k in Keys(items) ensures k in Keys(s) {
      var i :| 0 <= i < |items| && items[i].key == k;
      assert s[i + 1].key == k;
    }
    assert s[0].key == x.key;
  }

  lemma KeysSnoc(items: seq<Item>, x: Item)
    ensures Keys(items + [x]) == Keys(items) + {x.key}
  {
    var s := items + [x];
    forall k | k in Keys(s) ensures k in Keys(items) + {x.key} {
      var i :| 0 <= i < |s| && s[i].key == k;
      if i < |items| { assert items[i].key == k; }
    }
    forall k | k in Keys(items) ensures k in Keys(s) {
      var i :| 0 <= i < |items| && items[i].key == k;
      assert s[i].key == k;
    }
    assert s[|items|].key == x.key;
  }

  /** `$a[$k] = $v`: overwrite the item with key `k` where it stands, or append one. */
  function {:induction false} Put(items: seq<Item>, k: string, v: Value): (r: seq<Item>)
    ensures Keys(r) == Keys(items) + {k}
    ensures |r| <= |items| + 1
    ensures k in Keys(items) ==> |r| == |items|
  {
    if items == [] then
      KeysCons(Item(k, v), []);
      assert [Item(k, v)] + [] == [Item(k, v)];
      [Item(k, v)]
    else if items[0].key == k then
      KeysCons(items[0], items[1..]);
      KeysCons(Item(k, v), items[1..]);
      assert items == [items[0]] + items[1..];
      [Item(k, v)] + items[1..]
    else
      var tail := Put(items[1..], k, v);
      KeysCons(items[0], items[1..]);
      KeysCons(items[0], tail);
      assert items == [items[0]] + items[1..];
      [items[0]] + tail
  }

  lemma {:induction false} PutLookup(items: seq<Item>, k: string, v: Value, k': string)
    ensures Lookup(Put(items, k, v), k') == if k' == k then Some(v) else Lookup(items, k')
  {
    if items != [] && items[0].key != k {
      PutLookup(items[1..], k, v, k');
    }
  }

  lemma {:induction false} PutElements(items: seq<Item>, k: string, v: Value)
    ensures forall x :: x in Put(items, k, v) ==> x in items || x == Item(k, v)
  {
    if items != [] && items[0].key != k {
      PutElements(items[1..], k, v);
    }
  }

  lemma UniqueTail(items: seq<Item>)
    requires items != [] && UniqueKeys(items)
    ensures UniqueKeys(items[1..]) && items[0].key !in Keys(items[1..])
  {
    var t := items[1..];
    forall i, j | 0 <= i < j < |t| ensures t[i].key != t[j].key {
      assert t[i] == items[i + 1] && t[j] == items[j + 1];
    }
    forall i | 0 <= i < |t| ensures t[i].key != items[0].key {
      assert t[i] == items[i + 1];
    }
  }

  lemma UniqueCons(x: Item, items: seq<Item>)
    requires UniqueKeys(items) && x.key !in Keys(items)
    ensures UniqueKeys([x] + items)
  {
    var r := [x] + items;
    forall i, j | 0 <= i < j < |r| ensures r[i].key != r[j].key {
      assert r[j] == items[j - 1];
      if i > 0 { assert r[i] == items[i - 1]; }
    }
  }

  lemma {:induction false} PutUnique(items: seq<Item>, k: string, v: Value)
    requires UniqueKeys(items)
    ensures UniqueKeys(Put(items, k, v))
  {
    if items != [] {
      UniqueTail(items);
      if items[0].key == k {
        UniqueCons(Item(k, v), items[1..]);
      } else {
        PutUnique(items[1..], k, v);
        UniqueCons(items[0], Put(items[1..], k, v));
      }
    }
  }

  /** The array that assigning the items one by one, in order, builds from []. */
  function {:induction false} Collect(kvs: seq<Item>): (r: seq<Item>)
    ensures UniqueKeys(r)
    ensures Keys(r) == Keys(kvs)
    ensures |r| <= |kvs|
  {
    if kvs == [] then []
    else
      var n := |kvs| - 1;
      assert kvs == kvs[..n] + [kvs[n]];
      KeysSnoc(kvs[..n], kvs[n]);
      var acc := Collect(kvs[..n]);
      PutUnique(acc, kvs[n].key, kvs[n].value);
      Put(acc, kvs[n].key, kvs[n].value)
  }

  lemma CollectStep(kvs: seq<Item>, i: nat)
    requires i < |kvs|
    ensures Collect(kvs[..i + 1]) == Put(Collect(kvs[..i]), kvs[i].key, kvs[i].value)
  {
    var done := kvs[..i + 1];
    assert done[..i] == kvs[..i];
    assert done[i] == kvs[i];
  }

  /** Each key of the built array holds the value of the last item with that key. */
  lemma {:induction false} CollectLookup(kvs: seq<Item>, k: string)
    ensures Lookup(Collect(kvs), k) == LastValue(kvs, k)
  {
    if kvs != [] {
      var n := |kvs| - 1;
      CollectLookup(kvs[..n], k);
      PutLookup(Collect(kvs[..n]), kvs[n].key, kvs[n].value, k);
    }
  }

  /** The built array holds only items it was given. */
  lemma {:induction false} CollectElements(kvs: seq<Item>)
    ensures forall x :: x in Collect(kvs) ==> x in kvs
  {
    if kvs != [] {
      var n := |kvs| - 1;
      CollectElements(kvs[..n]);
      PutElements(Collect(kvs[..n]), kvs[n].key, kvs[n].value);
      assert kvs == kvs[..n] + [kvs[n]];
    }
  }

  /** `normalizeArrayKeys` on a value: arrays are rebuilt, anything else is kept as it is. */
  function Normalize(v: Value): (r: Value)
    decreases v, 2
    ensures v.Scalar? ==> r == v
    ensures v.Array? <==> r.Array?
  {
    match v
    case Scalar(_) => v
    case Array(items) => Array(NormalizeItems(items))
  }

  /** Each item with its key trimmed and its value normalised, before the assignments. */
  function Staged(items: seq<Item>): (r: seq<Item>)
    decreases Array(items), 0
    ensures |r| == |items|
  {
    seq(|items|, i requires 0 <= i < |items| => Item(Trim(items[i].key), Normalize(items[i].value)))
  }

  lemma StagedAt(items: seq<Item>, i: nat)
    requires i < |items|
    ensures Staged(items)[i] == Item(Trim(items[i].key), Normalize(items[i].value))
  {
  }

  /** The result of `normalizeArrayKeys($items)`: its keys are exactly the trimmed input keys,
      each once, so it never has more items than the input. */
  function NormalizeItems(items: seq<Item>): (r: seq<Item>)
    decreases Array(items), 1
    ensures |r| <= |items|
    ensures UniqueKeys(r)
    ensures Keys(r) == set i | 0 <= i < |items| :: Trim(items[i].key)
  {
    var s := Staged(items);
    assert Keys(s) == set i | 0 <= i < |items| :: Trim(items[i].key) by {
      forall k | k in Keys(s) ensures exists i :: 0 <= i < |items| && Trim(items[i].key) == k {
        var i :| 0 <= i < |s| && s[i].key == k;
      }
      forall i | 0 <= i < |items| ensures Trim(items[i].key) in Keys(s) {
        assert s[i].key == Trim(items[i].key);
      }
    }
    Collect(s)
  }

  lemma NormalizeItemsCollects(items: seq<Item>)
    ensures NormalizeItems(items) == Collect(Staged(items))
  {
  }

  lemma NormalizeArrayValue(v: Value)
    requires v.Array?
    ensures Normalize(v) == Array(NormalizeItems(v.items))
  {
  }

  /** One turn of the loop: assigning the next trimmed key and normalised value extends the
      array built so far by one staged item. */
  lemma NormalizeStep(items: seq<Item>, i: nat, normalized: seq<Item>, value: Value)
    requires i < |items|
    requires normalized == Collect(Staged(items)[..i])
    requires value == Normalize(items[i].value)
    ensures Put(normalized, Trim(items[i].key), value) == Collect(Staged(items)[..i + 1])
  {
    StagedAt(items, i);
    CollectStep(Staged(items), i);
  }

  /** The method form, as written: a loop over the items that assigns each trimmed key,
      recursing into array values first. */
  method NormalizeArrayKeys(items: seq<Item>) returns (normalized: seq<Item>)
    decreases Array(items)
    ensures normalized == NormalizeItems(items)
  {
    normalized := [];
    var i := 0;
    while i < |items|
      invariant 0 <= i <= |items|
      invariant normalized == Collect(Staged(items)[..i])
    {
      var key := Trim(items[i].key);
      var value := items[i].value;
      if value.Array? {
        var inner := NormalizeArrayKeys(value.items);
        NormalizeArrayValue(value);
        value := Array(inner);
      }
      NormalizeStep(items, i, normalized, value);
      normalized := Put(normalized, key, value);
      i := i + 1;
    }
    assert Staged(items)[..|items|] == Staged(items);
    NormalizeItemsCollects(items);
  }

  lemma {:induction false} LastValueAt(kvs: seq<Item>, j: nat)
    requires j < |kvs|
    requires forall j' :: j < j' < |kvs| ==> kvs[j'].key != kvs[j].key
    ensures LastValue(kvs, kvs[j].key) == Some(kvs[j].value)
  {
    if j < |kvs| - 1 {
      var p := kvs[..|kvs| - 1];
      assert p[j] == kvs[j];
      LastValueAt(p, j);
    }
  }

  /** When several keys trim to the same string, the value of the last of them is kept,
      normalised; a scalar value is carried over unchanged. */
  lemma LaterKeyWins(items: seq<Item>, j: nat)
    requires j < |items|
    requires forall j' :: j < j' < |items| ==> Trim(items[j'].key) != Trim(items[j].key)
    ensures Lookup(NormalizeItems(items), Trim(items[j].key)) == Some(Normalize(items[j].value))
    ensures items[j].value.Scalar? ==> Lookup(NormalizeItems(items), Trim(items[j].key)) == Some(items[j].value)
  {
    var s := Staged(items);
    LastValueAt(s, j);
    CollectLookup(s, Trim(items[j].key));
  }

  /** A normalised value: distinct, trimmed keys all the way down. */
  predicate IsNormal(v: Value)
    decreases v
  {
    match v
    case Scalar(_) => true
    case Array(items) =>
      UniqueKeys(items) &&
      forall i :: 0 <= i < |items| ==> Trim(items[i].key) == items[i].key && IsNormal(items[i].value)
  }

  lemma {:induction false} NormalizeIsNormal(v: Value)
    decreases v
    ensures IsNormal(Normalize(v))
  {
    match v
    case Scalar(_) =>
    case Array(items) =>
      var s := Staged(items);
      forall i | 0 <= i < |s| ensures Trim(s[i].key) == s[i].key && IsNormal(s[i].value) {
        TrimIdempotent(items[i].key);
        NormalizeIsNormal(items[i].value);
      }
      var out := Collect(s);
      CollectElements(s);
      forall i | 0 <= i < |out| ensures Trim(out[i].key) == out[i].key && IsNormal(out[i].value) {
        assert out[i] in s;
      }
  }

  lemma {:induction false} PutFresh(items: seq<Item>, k: string, v: Value)
    requires k !in Keys(items)
    ensures Put(items, k, v) == items + [Item(k, v)]
  {
    if items != [] {
      KeysCons(items[0], items[1..]);
      assert items == [items[0]] + items[1..];
      PutFresh(items[1..], k, v);
    }
  }

  /** Distinct keys stay distinct without the last item, which is then a fresh key. */
  lemma UniqueInit(kvs: seq<Item>)
    requires kvs != [] && UniqueKeys(kvs)
    ensures UniqueKeys(kvs[..|kvs| - 1])
    ensures kvs[|kvs| - 1].key !in Keys(kvs[..|kvs| - 1])
  {
    var p := kvs[..|kvs| - 1];
    forall i | 0 <= i < |p|
      ensures p[i] == kvs[i]
    {
    }
  }

  lemma {:induction false} CollectUnique(kvs: seq<Item>)
    requires UniqueKeys(kvs)
    ensures Collect(kvs) == kvs
  {
    if kvs != [] {
      var n := |kvs| - 1;
      var p := kvs[..n];
      UniqueInit(kvs);
      CollectUnique(p);
      PutFresh(p, kvs[n].key, kvs[n].value);
      assert kvs == p + [kvs[n]];
    }
  }

  lemma {:induction false} NormalIsFixed(v: Value)
    decreases v
    requires IsNormal(v)
    ensures Normalize(v) == v
  {
    match v
    case Scalar(_) =>
    case Array(items) =>
      var s := Staged(items);
      forall i | 0 <= i < |items| ensures s[i] == items[i] {
        NormalIsFixed(items[i].value);
      }
      assert s == items;
      CollectUnique(items);
  }

  /** Normalising a normalised array changes nothing. */
  lemma Idempotent(v: Value)
    ensures Normalize(Normalize(v)) == Normalize(v)
  {
    NormalizeIsNormal(v);
    NormalIsFixed(Normalize(v));
  }
}
