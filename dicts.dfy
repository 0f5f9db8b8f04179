/** Python's `dict` (and `defaultdict(list)`), which remembers the order in
    which keys were first inserted: a list of (key, value) entries whose
    keys do not repeat. */
module Dicts {
  import opened Common

  type Dict<K, V> = seq<(K, V)>

  /** No key has two entries. */
  predicate KeysDistinct<K(==), V(==)>(d: Dict<K, V>)
  {
    forall i, j :: 0 <= i < j < |d| ==> d[i].0 != d[j].0
  }

  /** The key set of a dict. */
  function Keys<K(==), V(==)>(d: Dict<K, V>): set<K>
  {
    set p | p in d :: p.0
  }

  /** `list(d.keys())`: the keys in insertion order. */
  function KeyList<K(==), V(==)>(d: Dict<K, V>): (r: seq<K>)
    ensures |r| == |d| && forall i :: 0 <= i < |d| ==> r[i] == d[i].0
    ensures forall k :: k in Keys(d) ==> k in r
  {
    if d == [] then [] else [d[0].0] + KeyList(d[1..])
  }

  /** Appending an entry appends its key to the key list. */
  lemma KeyListSnoc<K, V>(d: Dict<K, V>, x: (K, V))
    ensures KeyList(d + [x]) == KeyList(d) + [x.0]
  {
  }

  /** `d.get(k)`: the value stored under `k`, if any. */
  function Get<K(==), V(==)>(d: Dict<K, V>, k: K): (r: Option<V>)
    ensures r.Some? <==> k in Keys(d)
    ensures r.Some? ==> (k, r.value) in d
  {
    if d == [] then None
    else if d[0].0 == k then Some(d[0].1)
    else Get(d[1..], k)
  }

  /** `d[k]` on a `defaultdict(list)`: the list stored under `k`, or the
      empty list when `k` is not yet a key. */
  function ListOf<K(==), V(==)>(d: Dict<K, seq<V>>, k: K): (r: seq<V>)
    ensures r != [] ==> k in Keys(d)
  {
    match Get(d, k)
      case None => []
      case Some(l) => l
  }

  /** `d[k] = v`: a present key keeps its position, a new key is appended. */
  function Put<K(==), V(==)>(d: Dict<K, V>, k: K, v: V): (r: Dict<K, V>)
    ensures (k, v) in r
    ensures Keys(r) == Keys(d) + {k}
    ensures forall p :: p in d && p.0 != k ==> p in r
    ensures forall p :: p in r && p.0 != k ==> p in d
    ensures k !in Keys(d) ==> r == d + [(k, v)]
    ensures k in Keys(d) ==> |r| == |d| && forall i :: 0 <= i < |d| ==> r[i].0 == d[i].0
  {
    if d == [] then [(k, v)]
    else if d[0].0 == k then [(k, v)] + d[1..]
    else [d[0]] + Put(d[1..], k, v)
  }

  /** `del d[k]`: KeyError when `k` is not a key. */
  function Remove<K(==), V(==)>(d: Dict<K, V>, k: K): (r: Result<Dict<K, V>>)
    ensures r.Err? <==> k !in Keys(d)
    ensures r.Err? ==> r == Err(KeyError)
    ensures r.Ok? && KeysDistinct(d) ==> Keys(r.value) == Keys(d) - {k}
    ensures r.Ok? && KeysDistinct(d) ==> forall p :: p in r.value ==> p in d && p.0 != k
    ensures r.Ok? ==> forall p :: p in d && p.0 != k ==> p in r.value
  {
    if d == [] then Err(KeyError)
    else if d[0].0 == k then Ok(d[1..])
    else match Remove(d[1..], k)
      case Err(e) => Err(e)
      case Ok(rest) => Ok([d[0]] + rest)
  }

  /** `for k, x in d.items(): out[k] = fn(k, x)` into a fresh dict: the
      entries in order, the first exception raised by `fn` ending the loop. */
  function MapValues<K(==), V(==), W(==)>(d: Dict<K, V>, fn: (K, V) -> Result<W>): Result<Dict<K, W>>
  {
    if d == [] then Ok([])
    else
      match MapValues(d[..|d| - 1], fn)
      case Err(e) => Err(e)
      case Ok(acc) =>
        match fn(d[|d| - 1].0, d[|d| - 1].1)
        case Err(e) => Err(e)
        case Ok(w) => Ok(Put(acc, d[|d| - 1].0, w))
  }

  // ---------------------------------------------------------------------
  // Properties.

  /** The keys of a list of entries with one more entry at the end. */
  lemma KeysAppend<K, V>(d: Dict<K, V>, x: (K, V))
    ensures Keys(d + [x]) == Keys(d) + {x.0}
  {
    assert forall p :: p in d + [x] <==> p in d || p == x;
  }

  /** The keys of a non-empty list of entries: those before the last, and the last. */
  lemma KeysSnoc<K, V>(d: Dict<K, V>)
    requires d != []
    ensures Keys(d) == Keys(d[..|d| - 1]) + {d[|d| - 1].0}
  {
    assert d == d[..|d| - 1] + [d[|d| - 1]];
    KeysAppend(d[..|d| - 1], d[|d| - 1]);
  }

  /** A dict stays duplicate-free when an entry whose key is not yet
      present is put in front of it. */
  lemma ConsDistinct<K, V>(x: (K, V), t: Dict<K, V>)
    requires KeysDistinct(t) && x.0 !in Keys(t)
    ensures KeysDistinct([x] + t)
  {
    var r := [x] + t;
    forall i, j | 0 <= i < j < |r|
      ensures r[i].0 != r[j].0
    {
      if i == 0 {
        assert r[j] in t;
      }
    }
  }

  /** Storing a value keeps the keys distinct. */
  lemma {:induction false} PutDistinct<K, V>(d: Dict<K, V>, k: K, v: V)
    requires KeysDistinct(d)
    ensures KeysDistinct(Put(d, k, v))
  {
    if d != [] && d[0].0 != k {
      PutDistinct(d[1..], k, v);
      assert d[0].0 !in Keys(d[1..]) by {
        forall p | p in d[1..]
          ensures p.0 != d[0].0
        {
        }
      }
      ConsDistinct(d[0], Put(d[1..], k, v));
    } else if d != [] {
      assert d[0].0 == k;
      assert forall i :: 0 < i < |d| ==> d[i].0 != k;
    }
  }

  /** Storing a value makes it the value read back; other keys read as
      before. */
  lemma {:induction false} PutGet<K, V>(d: Dict<K, V>, k: K, v: V, k': K)
    requires KeysDistinct(d)
    ensures Get(Put(d, k, v), k') == if k' == k then Some(v) else Get(d, k')
  {
    if d != [] && d[0].0 != k {
      PutGet(d[1..], k, v, k');
    }
  }

  /** In a dict with distinct keys, an entry is what its key reads. */
  lemma GetUnique<K, V>(d: Dict<K, V>, k: K, v: V)
    requires KeysDistinct(d) && (k, v) in d
    ensures Get(d, k) == Some(v)
  {
    assert k in Keys(d);
    var w := Get(d, k).value;
    var i :| 0 <= i < |d| && d[i] == (k, v);
    var j :| 0 <= j < |d| && d[j] == (k, w);
  }

  /** Every entry after storing a value is the stored one or an old one. */
  lemma {:induction false} PutEntries<K, V>(d: Dict<K, V>, k: K, v: V)
    ensures forall p :: p in Put(d, k, v) ==> p == (k, v) || p in d
  {
    if d != [] && d[0].0 != k {
      PutEntries(d[1..], k, v);
    }
  }

  /** Deleting a key leaves it unreadable and every other key as before. */
  lemma {:induction false} RemoveGet<K, V>(d: Dict<K, V>, k: K, k': K)
    requires KeysDistinct(d) && k in Keys(d)
    ensures Remove(d, k).Ok?
    ensures Get(Remove(d, k).value, k') == if k' == k then None else Get(d, k')
  {
    if d[0].0 == k {
      if k' == k {
        forall p | p in d[1..]
          ensures p.0 != k
        {
        }
      }
    } else {
      assert d[0] in d;
      RemoveGet(d[1..], k, k');
    }
  }

  /** Deleting a key keeps the remaining keys distinct. */
  lemma {:induction false} RemoveDistinct<K, V>(d: Dict<K, V>, k: K)
    requires KeysDistinct(d) && k in Keys(d)
    ensures Remove(d, k).Ok? && KeysDistinct(Remove(d, k).value)
  {
    if d[0].0 != k {
      assert d[0] in d;
      assert forall p :: p in d[1..] ==> p in d;
      RemoveDistinct(d[1..], k);
      var rest := Remove(d[1..], k).value;
      forall p | p in rest
        ensures p.0 != d[0].0
      {
        assert p in d[1..];
        var j :| 0 <= j < |d[1..]| && d[1..][j] == p;
        assert d[j + 1] == p;
      }
      ConsDistinct(d[0], rest);
    }
  }

  /** The last entry is put into the result for the others. */
  lemma MapValuesStep<K, V, W>(d: Dict<K, V>, fn: (K, V) -> Result<W>)
    requires d != [] && MapValues(d, fn).Ok?
    ensures var n := |d| - 1;
            MapValues(d[..n], fn).Ok? && fn(d[n].0, d[n].1).Ok? &&
            MapValues(d, fn).value == Put(MapValues(d[..n], fn).value, d[n].0, fn(d[n].0, d[n].1).value)
  {
  }

  /** One more entry of `d`, in the loop's order. */
  lemma MapValuesSnoc<K, V, W>(d: Dict<K, V>, fn: (K, V) -> Result<W>, k: nat)
    requires k < |d| && MapValues(d[..k], fn).Ok? && fn(d[k].0, d[k].1).Ok?
    ensures MapValues(d[..k + 1], fn) == Ok(Put(MapValues(d[..k], fn).value, d[k].0, fn(d[k].0, d[k].1).value))
  {
    assert d[..k + 1][..k] == d[..k];
  }

  /** The first entry whose value raises makes the whole loop raise it. */
  lemma {:induction false} MapValuesFailsAt<K, V, W>(d: Dict<K, V>, fn: (K, V) -> Result<W>, k: nat)
    requires k < |d| && MapValues(d[..k], fn).Ok? && fn(d[k].0, d[k].1).Err?
    ensures MapValues(d, fn) == Err(fn(d[k].0, d[k].1).raised)
    decreases |d|
  {
    if k == |d| - 1 {
      assert d[..|d| - 1] == d[..k];
    } else {
      assert d[..|d| - 1][..k] == d[..k];
      MapValuesFailsAt(d[..|d| - 1], fn, k);
    }
  }

  /** Some entry of `d` makes `fn` raise. */
  predicate SomeRaises<K, V, W>(d: Dict<K, V>, fn: (K, V) -> Result<W>)
  {
    exists k :: 0 <= k < |d| && fn(d[k].0, d[k].1).Err?
  }

  lemma SomeRaisesStep<K, V, W>(d: Dict<K, V>, fn: (K, V) -> Result<W>)
    requires d != []
    ensures SomeRaises(d, fn) <==> SomeRaises(d[..|d| - 1], fn) || fn(d[|d| - 1].0, d[|d| - 1].1).Err?
  {
    var init := d[..|d| - 1];
    if SomeRaises(d, fn) {
      var k :| 0 <= k < |d| && fn(d[k].0, d[k].1).Err?;
      if k < |init| {
        assert init[k] == d[k];
      }
    }
    if SomeRaises(init, fn) {
      var k :| 0 <= k < |init| && fn(init[k].0, init[k].1).Err?;
      assert d[k] == init[k];
    }
  }

  /** The loop raises exactly when some entry's value raises. */
  lemma {:induction false} MapValuesFails<K, V, W>(d: Dict<K, V>, fn: (K, V) -> Result<W>)
    ensures MapValues(d, fn).Err? <==> SomeRaises(d, fn)
    decreases |d|
  {
    if d != [] {
      MapValuesFails(d[..|d| - 1], fn);
      SomeRaisesStep(d, fn);
    }
  }

  /** The result has exactly the keys of `d`. */
  lemma {:induction false} MapValuesKeys<K, V, W>(d: Dict<K, V>, fn: (K, V) -> Result<W>)
    requires MapValues(d, fn).Ok?
    ensures Keys(MapValues(d, fn).value) == Keys(d)
    decreases |d|
  {
    if d != [] {
      var n := |d| - 1;
      MapValuesStep(d, fn);
      MapValuesKeys(d[..n], fn);
      KeysSnoc(d);
    }
  }

  /** With distinct keys, entry k of the result is key k of `d` with the
      value `fn` gave it. */
  lemma {:induction false} MapValuesEntries<K, V, W>(d: Dict<K, V>, fn: (K, V) -> Result<W>, r: Dict<K, W>)
    requires KeysDistinct(d) && MapValues(d, fn) == Ok(r)
    ensures EntriesFrom(d, fn, r)
    decreases |d|
  {
    if d != [] {
      var n := |d| - 1;
      var acc := MapValues(d[..n], fn).value;
      LastKeyFresh(d);
      MapValuesStep(d, fn);
      MapValuesKeys(d[..n], fn);
      MapValuesEntries(d[..n], fn, acc);
      EntriesSnoc(d, fn, acc, r);
    }
  }

  /** Entry k of `r` is key k of `d` with the value `fn` gave it. */
  ghost predicate EntriesFrom<K, V, W>(d: Dict<K, V>, fn: (K, V) -> Result<W>, r: Dict<K, W>)
  {
    |r| == |d| && forall k :: 0 <= k < |d| ==> r[k].0 == d[k].0 && fn(d[k].0, d[k].1) == Ok(r[k].1)
  }

  lemma EntriesSnoc<K, V, W>(d: Dict<K, V>, fn: (K, V) -> Result<W>, acc: Dict<K, W>, r: Dict<K, W>)
    requires d != [] && EntriesFrom(d[..|d| - 1], fn, acc)
    requires fn(d[|d| - 1].0, d[|d| - 1].1).Ok?
    requires r == acc + [(d[|d| - 1].0, fn(d[|d| - 1].0, d[|d| - 1].1).value)]
    ensures EntriesFrom(d, fn, r)
  {
    var n := |d| - 1;
    forall k | 0 <= k < n
      ensures r[k].0 == d[k].0 && fn(d[k].0, d[k].1) == Ok(r[k].1)
    {
      assert r[k] == acc[k] && d[k] == d[..n][k];
    }
  }

  /** In a dict with distinct keys, the last key is not among the others,
      whose keys are distinct too. */
  lemma LastKeyFresh<K, V>(d: Dict<K, V>)
    requires d != [] && KeysDistinct(d)
    ensures KeysDistinct(d[..|d| - 1]) && d[|d| - 1].0 !in Keys(d[..|d| - 1])
  {
    forall p | p in d[..|d| - 1]
      ensures p.0 != d[|d| - 1].0
    {
    }
  }

  /** Two functions that agree on the entries of `d` give the same result. */
  lemma {:induction false} MapValuesCongruent<K, V, W>(d: Dict<K, V>, fn: (K, V) -> Result<W>, fn': (K, V) -> Result<W>)
    requires forall k :: 0 <= k < |d| ==> fn(d[k].0, d[k].1) == fn'(d[k].0, d[k].1)
    ensures MapValues(d, fn) == MapValues(d, fn')
    decreases |d|
  {
    if d != [] {
      var n := |d| - 1;
      MapValuesCongruent(d[..n], fn, fn');
    }
  }
}
