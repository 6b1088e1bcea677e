/** PHP values and PHP's ordered arrays, as far as the view helpers use them.
    A PHP array with string keys is an insertion-ordered dictionary; it is
    modelled as a sequence of (key, value) pairs whose keys are distinct. */
module PhpArrays {

  datatype Option<+T> = None | Some(value: T)

  /** No key occurs twice: a PHP array cannot hold the same key twice. */
  predicate DistinctKeys<V>(m: seq<(string, V)>)
  {
    forall i, j :: 0 <= i < j < |m| ==> m[i].0 != m[j].0
  }

  /** An ordered map: iteration order is insertion order. */
  type OrderedMap<V> = m: seq<(string, V)> | DistinctKeys(m) witness []

  /** The values that reach a view helper as arguments. */
  datatype Value =
    | Bool(b: bool)
    | Int(i: int)
    | Str(s: string)
    | Array(entries: OrderedMap<Value>)

  /** The value stored under `key`, if any (PHP's `isset($m[$key])` and `$m[$key]`). */
  function Lookup<V>(m: seq<(string, V)>, key: string): Option<V>
  {
    if m == [] then None
    else if m[0].0 == key then Some(m[0].1)
    else Lookup(m[1..], key)
  }

  /** Lookup finds a value exactly when some entry has the key, and the value
      it finds is stored under that key. */
  lemma {:induction false} LookupFindsKey<V>(m: seq<(string, V)>, key: string)
    ensures Lookup(m, key).None? <==> forall i :: 0 <= i < |m| ==> m[i].0 != key
    ensures Lookup(m, key).Some? ==> (key, Lookup(m, key).value) in m
  {
    if m != [] && m[0].0 != key {
      LookupFindsKey(m[1..], key);
      assert forall i :: 1 <= i < |m| ==> m[i] == m[1..][i - 1];
    }
  }

  /** In an ordered map, looking up the key of an entry finds that entry's value. */
  lemma {:induction false} LookupEntry<V>(m: seq<(string, V)>, i: nat)
    requires DistinctKeys(m) && i < |m|
    ensures Lookup(m, m[i].0) == Some(m[i].1)
  {
    if i > 0 {
      assert m[0].0 != m[i].0;
      assert m[1..][i - 1] == m[i];
      LookupEntry(m[1..], i - 1);
    }
  }

  /** PHP's conversion to boolean: false, 0, "", "0" and the empty array are false. */
  predicate IsTruthy(v: Value)
  {
    match v
    case Bool(b) => b
    case Int(i) => i != 0
    case Str(s) => s != "" && s != "0"
    case Array(entries) => entries != []
  }
}
