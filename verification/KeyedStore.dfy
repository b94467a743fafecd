// Stores that many tasks change one key at a time: a hash, a table with a primary key.
// What a key ends up with depends on the changes made to that key alone, in their order.
module KeyedStore {
  import opened Options

  datatype Op<+K, +C> = Op(key: K, change: C)

  function Get<K, V>(m: map<K, V>, k: K): Option<V> {
    if k in m then Some(m[k]) else None
  }

  function Put<K, V>(m: map<K, V>, k: K, v: Option<V>): map<K, V> {
    if v.Some? then m[k := v.value] else m - {k}
  }

  // The store after the changes of all tasks, in the order they took effect.
  function Apply<K, V, C>(f: (Option<V>, C) -> Option<V>, ops: seq<Op<K, C>>): map<K, V> {
    if ops == [] then map[]
    else
      var before, op := Apply(f, ops[..|ops| - 1]), ops[|ops| - 1];
      Put(before, op.key, f(Get(before, op.key), op.change))
  }

  lemma {:induction false} ApplyNone<K, V, C>(f: (Option<V>, C) -> Option<V>)
    ensures Apply<K, V, C>(f, []) == map[]
  {
  }

  lemma {:induction false} ApplyMore<K, V, C>(f: (Option<V>, C) -> Option<V>, ops: seq<Op<K, C>>, op: Op<K, C>)
    ensures Apply(f, ops + [op]) == Put(Apply(f, ops), op.key, f(Get(Apply(f, ops), op.key), op.change))
  {
    assert (ops + [op])[..|ops|] == ops;
  }

  // The changes to one key.
  function Changes<K(==), C>(ops: seq<Op<K, C>>, k: K): seq<C> {
    if ops == [] then []
    else
      var op := ops[|ops| - 1];
      Changes(ops[..|ops| - 1], k) + if op.key == k then [op.change] else []
  }

  function Fold<V, C>(f: (Option<V>, C) -> Option<V>, cs: seq<C>): Option<V> {
    if cs == [] then None else f(Fold(f, cs[..|cs| - 1]), cs[|cs| - 1])
  }

  lemma {:induction false} ApplyAt<K, V, C>(f: (Option<V>, C) -> Option<V>, ops: seq<Op<K, C>>, k: K)
    ensures Get(Apply(f, ops), k) == Fold(f, Changes(ops, k))
  {
    if ops != [] {
      var n := |ops| - 1;
      ApplyAt(f, ops[..n], k);
      if ops[n].key == k {
        assert Changes(ops, k)[..|Changes(ops, k)| - 1] == Changes(ops[..n], k);
      } else {
        assert Changes(ops, k) == Changes(ops[..n], k);
      }
    }
  }

  // Interleavings that keep the order of changes to each key end in the same store.
  lemma {:induction false} Confluent<K(
    !new), V, C>(f: (Option<V>, C) -> Option<V>, ops: seq<Op<K, C>>, other: seq<Op<K, C>>
  )
    requires forall k :: Changes(ops, k) == Changes(other, k)
    ensures Apply(f, ops) == Apply(f, other)
  {
    var m, n := Apply(f, ops), Apply(f, other);
    forall k: K
      ensures Get(m, k) == Get(n, k)
    {
      ApplyAt(f, ops, k);
      ApplyAt(f, other, k);
    }
    assert forall k :: k in m <==> Get(m, k).Some?;
    assert forall k :: k in n <==> Get(n, k).Some?;
    assert forall k :: k in m ==> Get(m, k) == Some(m[k]);
    assert forall k :: k in n ==> Get(n, k) == Some(n[k]);
  }
}
