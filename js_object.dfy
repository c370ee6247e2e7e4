/**
  A plain JavaScript object as the profile screen uses one: its entries in
  insertion order (what `Object.entries` lists), read by key and updated with
  the spread form `{ ...prev, [key]: value }`.
 */
module JsObject {
  import opened Options

  datatype Entry<V> = Entry(key: string, value: V)

  /** The keys, in the order `Object.entries` lists them. */
  function Keys<V>(es: seq<Entry<V>>): (ks: seq<string>)
    ensures |ks| == |es|
    ensures forall i :: 0 <= i < |es| ==> ks[i] == es[i].key
  {
    if es == [] then [] else [es[0].key] + Keys(es[1..])
  }

  /** An object never holds the same key twice. */
  predicate DistinctKeys<V>(es: seq<Entry<V>>) {
    forall i, j :: 0 <= i < j < |es| ==> es[i].key != es[j].key
  }

  /** `obj[key]`: `None` stands for `undefined`. */
  function Get<V>(es: seq<Entry<V>>, key: string): (r: Option<V>)
    ensures r.None? <==> key !in Keys(es)
    ensures r.Some? ==> exists i :: 0 <= i < |es| && es[i] == Entry(key, r.value)
  {
    if es == [] then None
    else if es[0].key == key then Some(es[0].value)
    else Get(es[1..], key)
  }

  /** `{ ...es, [key]: value }`: an existing key keeps its place and takes the
      new value; a new key goes at the end. */
  function Assign<V>(es: seq<Entry<V>>, key: string, value: V): seq<Entry<V>> {
    if es == [] then [Entry(key, value)]
    else if es[0].key == key then [Entry(key, value)] + es[1..]
    else [es[0]] + Assign(es[1..], key, value)
  }

  /** An existing key keeps the key order; a new key is appended to it. */
  lemma {:induction false} AssignKeys<V>(es: seq<Entry<V>>, key: string, value: V)
    ensures key in Keys(es) ==> Keys(Assign(es, key, value)) == Keys(es)
    ensures key !in Keys(es) ==> Keys(Assign(es, key, value)) == Keys(es) + [key]
  {
    if es != [] && es[0].key != key {
      var rest := Assign(es[1..], key, value);
      AssignKeys(es[1..], key, value);
      assert ([es[0]] + rest)[1..] == rest;
      assert key in Keys(es) <==> key in Keys(es[1..]);
    } else if es != [] {
      assert ([Entry(key, value)] + es[1..])[1..] == es[1..];
    }
  }

  /** After the update the key reads as the new value, and every other key
      reads as before. */
  lemma {:induction false} AssignGet<V>(es: seq<Entry<V>>, key: string, value: V, other: string)
    ensures Get(Assign(es, key, value), key) == Some(value)
    ensures other != key ==> Get(Assign(es, key, value), other) == Get(es, other)
  {
    if es != [] && es[0].key != key {
      AssignGet(es[1..], key, value, other);
      assert ([es[0]] + Assign(es[1..], key, value))[1..] == Assign(es[1..], key, value);
    } else if es != [] {
      assert ([Entry(key, value)] + es[1..])[1..] == es[1..];
    }
  }

  /** The update keeps the keys distinct. */
  lemma AssignDistinct<V>(es: seq<Entry<V>>, key: string, value: V)
    requires DistinctKeys(es)
    ensures DistinctKeys(Assign(es, key, value))
  {
    var r := Assign(es, key, value);
    AssignKeys(es, key, value);
    forall i, j | 0 <= i < j < |r| ensures r[i].key != r[j].key {
      assert r[i].key == Keys(r)[i] && r[j].key == Keys(r)[j];
    }
  }
}
