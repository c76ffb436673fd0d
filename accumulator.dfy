// The `frameworks_symbols` accumulator of `run`: a Ruby Hash, which remembers the order in
// which its keys were first inserted; assigning to an existing key replaces the value and
// keeps the key where it was.
module Accumulator {

  /** No element occurs twice. */
  predicate Distinct<T(==)>(s: seq<T>)
  {
    forall i, j :: 0 <= i < j < |s| ==> s[i] != s[j]
  }

  /** Two lists without repeats and without common elements have none together. */
  lemma DistinctConcat<T(!new)>(a: seq<T>, b: seq<T>)
    requires Distinct(a) && Distinct(b) && forall x :: x in b ==> x !in a
    ensures Distinct(a + b)
  {
    forall i, j | 0 <= i < j < |a + b|
      ensures (a + b)[i] != (a + b)[j]
    {
      if i < |a| && j >= |a| {
        assert (a + b)[j] == b[j - |a|] && b[j - |a|] in b;
      }
    }
  }

  /** The pairs of a hash in key order. */
  function EntriesOf<K, V>(keys: seq<K>, values: map<K, V>): (entries: seq<(K, V)>)
    requires forall k :: k in keys ==> k in values
    ensures |entries| == |keys|
    ensures forall i :: 0 <= i < |keys| ==> entries[i].0 == keys[i] && entries[i].1 == values[keys[i]]
  {
    seq(|keys|, i requires 0 <= i < |keys| => (keys[i], values[keys[i]]))
  }

  /** The key order after assigning to the keys `puts` in turn, starting from an empty hash. */
  function InsertionOrder<K(==)>(puts: seq<K>): seq<K>
  {
    if |puts| == 0 then []
    else
      var earlier := InsertionOrder(puts[..|puts| - 1]);
      var key := puts[|puts| - 1];
      if key in earlier then earlier else earlier + [key]
  }

  /** The keys of the hash are exactly the keys assigned, each once. */
  lemma {:induction false} InsertionOrderKeys<K(!new)>(puts: seq<K>)
    ensures forall k :: k in InsertionOrder(puts) <==> k in puts
    ensures Distinct(InsertionOrder(puts))
  {
    if |puts| > 0 {
      var init := puts[..|puts| - 1];
      InsertionOrderKeys(init);
      assert puts == init + [puts[|puts| - 1]];
    }
  }

  /** When no key is assigned twice, the hash keeps them in assignment order. */
  lemma {:induction false} InsertionOrderOfDistinct<K(!new)>(puts: seq<K>)
    requires Distinct(puts)
    ensures InsertionOrder(puts) == puts
  {
    if |puts| > 0 {
      var init := puts[..|puts| - 1];
      InsertionOrderOfDistinct(init);
      assert puts == init + [puts[|puts| - 1]];
    }
  }

  /** Where `k` first occurs in `s`. */
  function FirstIndex<K(==)>(s: seq<K>, k: K): (i: nat)
    requires k in s
    ensures i < |s| && s[i] == k && forall c :: 0 <= c < i ==> s[c] != k
  {
    if s[0] == k then 0 else 1 + FirstIndex(s[1..], k)
  }

  /** Appending does not move a first occurrence. */
  lemma FirstIndexAppend<K(!new)>(s: seq<K>, x: K, k: K)
    requires k in s
    ensures FirstIndex(s + [x], k) == FirstIndex(s, k)
  {
    var a := FirstIndex(s + [x], k);
    var b := FirstIndex(s, k);
    assert (s + [x])[b] == k;
    assert a <= b;
    assert s[a] == k;
  }

  /** Keys come out in the order of their first assignment. */
  lemma {:induction false} InsertionOrderByFirstAssignment<K(!new)>(puts: seq<K>, i: nat, j: nat)
    requires i < j < |InsertionOrder(puts)|
    ensures InsertionOrder(puts)[i] in puts && InsertionOrder(puts)[j] in puts
    ensures FirstIndex(puts, InsertionOrder(puts)[i]) < FirstIndex(puts, InsertionOrder(puts)[j])
  {
    assert |puts| > 0;
    var init := puts[..|puts| - 1];
    var key := puts[|puts| - 1];
    var earlier := InsertionOrder(init);
    assert puts == init + [key];
    assert InsertionOrder(puts) == if key in earlier then earlier else earlier + [key];
    assert InsertionOrder(puts)[i] == earlier[i];
    InsertionOrderKeys(init);
    InsertionOrderKeys(puts);
    assert earlier[i] in earlier;
    assert earlier[i] in init;
    FirstIndexAppend(init, key, earlier[i]);
    if j < |earlier| {
      InsertionOrderByFirstAssignment(init, i, j);
      assert earlier[j] in earlier;
      FirstIndexAppend(init, key, earlier[j]);
    } else {
      // The last assignment introduced a new key.
      assert InsertionOrder(puts)[j] == key && key !in init;
      assert FirstIndex(puts, key) == |init|;
    }
  }

  /** A Ruby Hash: its keys in insertion order and the value stored under each. */
  class OrderedHash<K(==, !new), V> {
    var keys: seq<K>
    var values: map<K, V>

    ghost predicate Valid()
      reads this
    {
      (forall k :: k in values <==> k in keys) && Distinct(keys)
    }

    /** `{}` */
    constructor ()
      ensures Valid() && keys == [] && values == map[]
    {
      keys := [];
      values := map[];
    }

    /** `hash[key] = value`: a new key goes last, an existing key keeps its place. */
    method Put(key: K, value: V)
      requires Valid()
      modifies this
      ensures Valid()
      ensures keys == if key in old(keys) then old(keys) else old(keys) + [key]
      ensures values == old(values)[key := value]
    {
      if key !in values {
        keys := keys + [key];
      }
      values := values[key := value];
    }

    /** `each`: the pairs in insertion order. */
    function Entries(): (entries: seq<(K, V)>)
      reads this
      requires Valid()
      ensures |entries| == |keys|
      ensures forall i :: 0 <= i < |keys| ==> entries[i] == (keys[i], values[keys[i]])
    {
      EntriesOf(keys, values)
    }
  }
}
