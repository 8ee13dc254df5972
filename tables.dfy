/** Style tables: the ordered dictionaries the dialog builds, from a Qt selector
    to an ordered list of (property, value) declarations. Python dictionaries
    keep insertion order, and rendering follows it, so a table is a sequence of
    pairs rather than a Dafny map. */
module Tables {
  import opened Base

  type Decl = (string, string)
  type Block = (string, seq<Decl>)
  type StyleTable = seq<Block>

  /** The keys of an ordered dictionary, in insertion order. */
  function Keys<V>(pairs: seq<(string, V)>): seq<string>
  {
    seq(|pairs|, i requires 0 <= i < |pairs| => pairs[i].0)
  }

  /** Pairs each key with the value at the same position. */
  function Zip<V>(ks: seq<string>, vs: seq<V>): seq<(string, V)>
    requires |ks| == |vs|
  {
    seq(|ks|, i requires 0 <= i < |ks| => (ks[i], vs[i]))
  }

  /** No key occurs twice, as in a Python dictionary. */
  predicate Distinct(ks: seq<string>)
  {
    forall i, j :: 0 <= i < j < |ks| ==> ks[i] != ks[j]
  }

  /** Dictionary lookup: the value stored under `key`, or None when the key is absent. */
  function Find<V>(pairs: seq<(string, V)>, key: string): Option<V>
  {
    if pairs == [] then None
    else if pairs[0].0 == key then Some(pairs[0].1)
    else Find(pairs[1..], key)
  }

  /** Lookup fails exactly on absent keys, and what it finds is stored under the key. */
  lemma {:induction false} FindSound<V>(pairs: seq<(string, V)>, key: string)
    ensures Find(pairs, key).None? <==> key !in Keys(pairs)
    ensures Find(pairs, key).Some? ==> (key, Find(pairs, key).value) in pairs
  {
    if pairs == [] {
    } else if pairs[0].0 == key {
      assert Keys(pairs)[0] == key;
    } else {
      FindSound(pairs[1..], key);
      assert Keys(pairs) == [pairs[0].0] + Keys(pairs[1..]);
    }
  }

  /** The entry at position i is the one lookup finds when no earlier entry has its key. */
  lemma {:induction false} FindAt<V>(pairs: seq<(string, V)>, i: nat)
    requires i < |pairs|
    requires forall j :: 0 <= j < i ==> pairs[j].0 != pairs[i].0
    ensures Find(pairs, pairs[i].0) == Some(pairs[i].1)
  {
    if i > 0 {
      FindAt(pairs[1..], i - 1);
    }
  }

  /** Zipping keys and values gives back the keys. */
  lemma ZipKeys<V>(ks: seq<string>, vs: seq<V>)
    requires |ks| == |vs|
    ensures Keys(Zip(ks, vs)) == ks
  {
  }

  /** In a zipped dictionary without repeated keys, looking up the i-th key finds the i-th value. */
  lemma {:induction false} FindZip<V>(ks: seq<string>, vs: seq<V>, i: nat)
    requires |ks| == |vs| && i < |ks|
    requires Distinct(ks)
    ensures Find(Zip(ks, vs), ks[i]) == Some(vs[i])
  {
    FindAt(Zip(ks, vs), i);
  }

  /** The value of property `prop` under selector `sel`, if both are present. */
  function Value(t: StyleTable, sel: string, prop: string): Option<string>
  {
    match Find(t, sel)
    case None => None
    case Some(ds) => Find(ds, prop)
  }
}
