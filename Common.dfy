/** Shared value types: optional values, the exceptions the scripts raise as
    values, and the dynamic values that flow through configuration and result
    dictionaries. */
module Common {

  datatype Option<+T> = None | Some(value: T)

  /** The Python exception classes the modelled code raises. */
  datatype Error =
    | ValueError(msg: string)
    | KeyError(msg: string)
    | FileNotFoundError(msg: string)
    | IndexError(msg: string)
    | SystemExit(msg: string)

  datatype Result<+T> = Ok(value: T) | Err(error: Error) {
    predicate IsFailure() { Err? }
    function PropagateFailure<U>(): Result<U>
      requires Err?
    {
      Err(error)
    }
    function Extract(): T
      requires Ok?
    {
      value
    }
  }

  /** A dynamic Python value as read from YAML/JSON or produced by a processor. */
  datatype Json =
    | JNull
    | JBool(b: bool)
    | JInt(i: int)
    | JNum(x: real)
    | JStr(s: string)
    | JList(items: seq<Json>)
    | JObj(fields: map<string, Json>)

  /** A Python `float`: a finite value (modelled as a real, without IEEE
      rounding), an infinity or NaN. */
  datatype PyFloat = Finite(x: real) | PosInf | NegInf | NaN

  /** Python truthiness of a value that is either missing/None or a string. */
  predicate Truthy(s: Option<string>) {
    s.Some? && s.value != ""
  }

  /** Python `a or b` where both sides are optional strings. */
  function Or(a: Option<string>, b: Option<string>): Option<string> {
    if Truthy(a) then a else b
  }

  /** Python `str(x or "")` for an optional string. */
  function OrEmpty(s: Option<string>): string {
    if s.Some? then s.value else ""
  }

  /** Python `x or default` for an optional list. */
  function ListOr<T>(s: Option<seq<T>>, default: seq<T>): seq<T> {
    if s.Some? && s.value != [] then s.value else default
  }

  // ----- Python dictionaries filled in order -----

  /** A dictionary filled from entries in order: a later entry overwrites. */
  function MapOfEntries<K, V>(es: seq<(K, V)>): map<K, V>
    decreases |es|
  {
    if es == [] then map[]
    else MapOfEntries(es[..|es| - 1])[es[|es| - 1].0 := es[|es| - 1].1]
  }

  /** Writing the next entry of `es` after `done` is one dictionary update. */
  lemma MapOfEntriesStep<K, V>(done: seq<(K, V)>, es: seq<(K, V)>, i: nat)
    requires i < |es|
    ensures MapOfEntries(done + es[..i + 1]) == MapOfEntries(done + es[..i])[es[i].0 := es[i].1]
  {
    var s := done + es[..i + 1];
    assert s[..|s| - 1] == done + es[..i];
    assert s[|s| - 1] == es[i];
  }

  /** The dictionary has exactly the entries' keys, and each key holds the
      value of its last entry. */
  lemma {:induction false} MapOfEntriesLastWins<K, V>(es: seq<(K, V)>, k: nat)
    requires k < |es| && forall j :: k < j < |es| ==> es[j].0 != es[k].0
    ensures es[k].0 in MapOfEntries(es) && MapOfEntries(es)[es[k].0] == es[k].1
    decreases |es|
  {
    var n := |es| - 1;
    if k < n {
      MapOfEntriesLastWins(es[..n], k);
    }
  }

  lemma {:induction false} MapOfEntriesKeys<K, V>(es: seq<(K, V)>)
    ensures MapOfEntries(es).Keys == set i | 0 <= i < |es| :: es[i].0
    decreases |es|
  {
    if es != [] {
      var n := |es| - 1;
      MapOfEntriesKeys(es[..n]);
      var keys := set i | 0 <= i < |es| :: es[i].0;
      var initKeys := set i | 0 <= i < n :: es[..n][i].0;
      forall x | x in keys ensures x in initKeys + {es[n].0} {
        var i :| 0 <= i < |es| && es[i].0 == x;
        if i < n {
          assert es[..n][i].0 == x;
        }
      }
      forall x | x in initKeys ensures x in keys {
        var i :| 0 <= i < n && es[..n][i].0 == x;
        assert es[i].0 == x;
      }
    }
  }

  // ----- Python dictionaries kept as their items, in insertion order -----

  predicate DistinctKeys<K(==), V>(items: seq<(K, V)>) {
    forall i, j :: 0 <= i < j < |items| ==> items[i].0 != items[j].0
  }

  /** `d.get(k)` on a dictionary kept as its items. */
  function DictGet<K(==), V>(items: seq<(K, V)>, k: K): (r: Option<V>)
    ensures r.None? <==> forall i :: 0 <= i < |items| ==> items[i].0 != k
    ensures r.Some? ==> exists i :: 0 <= i < |items| && items[i] == (k, r.value)
    decreases |items|
  {
    if items == [] then None
    else if items[0].0 == k then Some(items[0].1)
    else
      var r := DictGet(items[1..], k);
      assert forall i :: 0 < i < |items| ==> items[i] == items[1..][i - 1];
      r
  }

  /** `d[k] = v`: an existing key keeps its place and takes the new value, a
      new key goes last. */
  function DictPut<K(==), V>(items: seq<(K, V)>, k: K, v: V): (r: seq<(K, V)>)
    ensures |r| == |items| || |r| == |items| + 1
    ensures forall i :: 0 <= i < |items| ==> r[i].0 == items[i].0
    ensures forall i :: |items| <= i < |r| ==> r[i].0 == k
    ensures (forall i :: 0 <= i < |items| ==> items[i].0 != k) ==> r == items + [(k, v)]
    ensures DistinctKeys(items) ==> DistinctKeys(r)
    decreases |items|
  {
    if items == [] then [(k, v)]
    else if items[0].0 == k then [(k, v)] + items[1..]
    else
      var rest := DictPut(items[1..], k, v);
      assert forall i :: 0 < i < |items| ==> items[i] == items[1..][i - 1];
      [items[0]] + rest
  }

  /** After `d[k] = v`, `k` holds `v` and every other key its old value. */
  lemma {:induction false} DictPutGet<K, V>(items: seq<(K, V)>, k: K, v: V, k2: K)
    ensures DictGet(DictPut(items, k, v), k2) == if k2 == k then Some(v) else DictGet(items, k2)
    decreases |items|
  {
    if items != [] && items[0].0 != k {
      DictPutGet(items[1..], k, v, k2);
      assert DictPut(items, k, v)[1..] == DictPut(items[1..], k, v);
    }
  }

  /** The entries written into `items` one after another, as `d[k] = v` in a
      loop or `d.update(...)` do. */
  function DictUpdate<K(==), V>(items: seq<(K, V)>, es: seq<(K, V)>): (r: seq<(K, V)>)
    ensures |items| <= |r|
    ensures forall i :: 0 <= i < |items| ==> r[i].0 == items[i].0
    ensures DistinctKeys(items) ==> DistinctKeys(r)
    decreases |es|
  {
    if es == [] then items
    else
      var n := |es| - 1;
      DictPut(DictUpdate(items, es[..n]), es[n].0, es[n].1)
  }

  /** After the update a key holds the value of its last entry, or its old
      value when no entry names it: the same dictionary as `MapOfEntries`
      over the old items and the entries. */
  lemma {:induction false} DictUpdateGet<K, V>(items: seq<(K, V)>, es: seq<(K, V)>, k: K)
    ensures k in MapOfEntries(es) ==> DictGet(DictUpdate(items, es), k) == Some(MapOfEntries(es)[k])
    ensures k !in MapOfEntries(es) ==> DictGet(DictUpdate(items, es), k) == DictGet(items, k)
    decreases |es|
  {
    if es != [] {
      var n := |es| - 1;
      DictUpdateGet(items, es[..n], k);
      DictPutGet(DictUpdate(items, es[..n]), es[n].0, es[n].1, k);
    }
  }

  /** `d.get(k)` on a dictionary with one more item at the end. */
  lemma {:induction false} DictGetSnoc<K, V>(items: seq<(K, V)>, x: (K, V), k: K)
    ensures DictGet(items + [x], k)
         == if DictGet(items, k).Some? then DictGet(items, k) else if x.0 == k then Some(x.1) else None
    decreases |items|
  {
    if items != [] {
      assert (items + [x])[1..] == items[1..] + [x];
      DictGetSnoc(items[1..], x, k);
    }
  }

  /** `d.update(other)` with a dictionary `other`: its keys take its values
      and every other key keeps its old value. */
  lemma {:induction false} DictUpdateWithDict<K, V>(items: seq<(K, V)>, other: seq<(K, V)>, k: K)
    requires DistinctKeys(other)
    ensures DictGet(DictUpdate(items, other), k)
         == if DictGet(other, k).Some? then DictGet(other, k) else DictGet(items, k)
    decreases |other|
  {
    if other != [] {
      var n := |other| - 1;
      var init := other[..n];
      assert init + [other[n]] == other;
      DictUpdateWithDict(items, init, k);
      DictPutGet(DictUpdate(items, init), other[n].0, other[n].1, k);
      DictGetSnoc(init, other[n], k);
      if k == other[n].0 {
        assert DictGet(init, k).None?;
      }
    }
  }
}
