/** Python dictionaries as ordered association lists.
    A Python dict remembers insertion order; assigning to an existing key keeps
    its position and `pop` removes the key. The model keeps the items in order
    so that loops over `.items()` see them as the program does. */
module Dicts {

  datatype Option<+T> = None | Some(value: T)

  /** The items of a dict, in insertion order. */
  type Dict<K, V> = seq<(K, V)>

  /** `d.get(k)`: the value of the first item with key `k`. */
  function Get<K(==), V>(d: Dict<K, V>, k: K): Option<V>
  {
    if d == [] then None
    else if d[0].0 == k then Some(d[0].1)
    else Get(d[1..], k)
  }

  /** `k in d` */
  predicate HasKey<K(==), V>(d: Dict<K, V>, k: K)
  {
    Get(d, k).Some?
  }

  /** `d.get(k, default)` */
  function GetOr<K(==), V>(d: Dict<K, V>, k: K, default: V): V
  {
    match Get(d, k)
    case Some(v) => v
    case None => default
  }

  /** `d[k] = v`: an existing key keeps its place, a new key goes at the end. */
  function Set<K(==), V>(d: Dict<K, V>, k: K, v: V): Dict<K, V>
  {
    if d == [] then [(k, v)]
    else if d[0].0 == k then [(k, v)] + d[1..]
    else [d[0]] + Set(d[1..], k, v)
  }

  /** `d.pop(k, None)`: the key is gone afterwards; an absent key is no error. */
  function Pop<K(==), V>(d: Dict<K, V>, k: K): Dict<K, V>
  {
    if d == [] then []
    else if d[0].0 == k then Pop(d[1..], k)
    else [d[0]] + Pop(d[1..], k)
  }

  lemma {:induction false} GetSetSame<K, V>(d: Dict<K, V>, k: K, v: V)
    ensures Get(Set(d, k, v), k) == Some(v)
  {
    if d != [] && d[0].0 != k {
      GetSetSame(d[1..], k, v);
    }
  }

  lemma {:induction false} GetSetOther<K, V>(d: Dict<K, V>, k: K, v: V, j: K)
    requires j != k
    ensures Get(Set(d, k, v), j) == Get(d, j)
  {
    if d != [] && d[0].0 != k && d[0].0 != j {
      GetSetOther(d[1..], k, v, j);
    }
  }

  /** Writing back the value a key already has leaves the dict as it was. */
  lemma {:induction false} SetExisting<K, V>(d: Dict<K, V>, k: K, v: V)
    requires Get(d, k) == Some(v)
    ensures Set(d, k, v) == d
  {
    if d[0].0 != k {
      SetExisting(d[1..], k, v);
    }
  }

  lemma {:induction false} GetPopSame<K, V>(d: Dict<K, V>, k: K)
    ensures Get(Pop(d, k), k) == None
  {
    if d != [] {
      GetPopSame(d[1..], k);
    }
  }

  lemma {:induction false} GetPopOther<K, V>(d: Dict<K, V>, k: K, j: K)
    requires j != k
    ensures Get(Pop(d, k), j) == Get(d, j)
  {
    if d != [] && d[0].0 != j {
      GetPopOther(d[1..], k, j);
    }
  }

  /** Popping an absent key changes nothing. */
  lemma {:induction false} PopAbsent<K, V>(d: Dict<K, V>, k: K)
    requires Get(d, k) == None
    ensures Pop(d, k) == d
  {
    if d != [] {
      PopAbsent(d[1..], k);
    }
  }

  /** Lookup in two concatenated item lists finds the first list's entry first. */
  lemma {:induction false} GetConcat<K, V>(a: Dict<K, V>, b: Dict<K, V>, k: K)
    ensures Get(a + b, k) == if Get(a, k).Some? then Get(a, k) else Get(b, k)
  {
    if a == [] {
      assert a + b == b;
    } else {
      assert (a + b)[1..] == a[1..] + b;
      GetConcat(a[1..], b, k);
    }
  }

  lemma GetCons<K, V>(e: (K, V), rest: Dict<K, V>, k: K)
    ensures Get([e] + rest, k) == if e.0 == k then Some(e.1) else Get(rest, k)
  {
    assert ([e] + rest)[1..] == rest;
  }

  /** No key occurs twice, as in every Python dict. */
  predicate UniqueKeys<K(==), V>(d: Dict<K, V>)
  {
    d == [] || (!HasKey(d[1..], d[0].0) && UniqueKeys(d[1..]))
  }

  /** Assignment and `pop` keep the keys unique, so every dict the model
      builds from dicts without duplicates has none either. */
  lemma {:induction false} SetKeepsUnique<K, V>(d: Dict<K, V>, k: K, v: V)
    requires UniqueKeys(d)
    ensures UniqueKeys(Set(d, k, v))
  {
    if d != [] {
      var r := Set(d, k, v);
      if d[0].0 == k {
        assert r[1..] == d[1..];
      } else {
        SetKeepsUnique(d[1..], k, v);
        GetSetOther(d[1..], k, v, d[0].0);
        assert r[1..] == Set(d[1..], k, v);
      }
    }
  }

  lemma {:induction false} PopKeepsUnique<K, V>(d: Dict<K, V>, k: K)
    requires UniqueKeys(d)
    ensures UniqueKeys(Pop(d, k))
  {
    if d != [] {
      PopKeepsUnique(d[1..], k);
      if d[0].0 != k {
        var r := Pop(d, k);
        assert r[1..] == Pop(d[1..], k);
        GetPopOther(d[1..], k, d[0].0);
      }
    }
  }
}
