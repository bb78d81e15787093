/**
 * PHP arrays with string keys keep their insertion order; the router iterates such arrays
 * (the alias table, the attributes, the variables of a URL), so they are sequences of
 * key/value pairs here, and `Put` is PHP's `$a[$k] = $v`.
 */
module PhpArray {
  import opened Wrappers

  type Pairs = seq<(string, string)>

  /** `$a[$k]` when `array_key_exists($k, $a)`, None otherwise: the value of the first pair with key `k`. */
  function Lookup(a: Pairs, k: string): (r: Option<string>)
    ensures r.None? <==> forall i :: 0 <= i < |a| ==> a[i].0 != k
    ensures r.Some? ==> exists i :: 0 <= i < |a| && a[i] == (k, r.value) && forall j :: 0 <= j < i ==> a[j].0 != k
  {
    if a == [] then None
    else if a[0].0 == k then Some(a[0].1)
    else
      var r := Lookup(a[1..], k);
      assert r.Some? ==> exists i :: 0 <= i < |a| && a[i] == (k, r.value) && forall j :: 0 <= j < i ==> a[j].0 != k by {
        if r.Some? {
          var i :| 0 <= i < |a[1..]| && a[1..][i] == (k, r.value) && forall j :: 0 <= j < i ==> a[1..][j].0 != k;
          assert a[i + 1] == (k, r.value);
        }
      }
      r
  }

  /** The keys of an array are distinct, as PHP guarantees. */
  predicate DistinctKeys(a: Pairs) {
    forall i, j :: 0 <= i < j < |a| ==> a[i].0 != a[j].0
  }

  /** `$a[$k] = $v`: an existing key keeps its place and takes the new value; a new key goes at the end. */
  function Put(a: Pairs, k: string, v: string): (r: Pairs)
    ensures Lookup(r, k) == Some(v)
    ensures forall k' :: k' != k ==> Lookup(r, k') == Lookup(a, k')
    ensures Lookup(a, k).None? ==> r == a + [(k, v)]
    ensures |r| == |a| + (if Lookup(a, k).None? then 1 else 0)
  {
    if a == [] then [(k, v)]
    else if a[0].0 == k then [(k, v)] + a[1..]
    else [a[0]] + Put(a[1..], k, v)
  }

  /** Putting pairs with distinct keys, in order, into an empty array gives those pairs in that order. */
  lemma {:induction false} PutAllDistinct(acc: Pairs, a: Pairs)
    requires DistinctKeys(acc + a)
    ensures PutAll(acc, a) == acc + a
    decreases |a|
  {
    if a != [] {
      assert Lookup(acc, a[0].0).None? by {
        forall i | 0 <= i < |acc| ensures acc[i].0 != a[0].0 {
          assert (acc + a)[i] == acc[i] && (acc + a)[|acc|] == a[0];
        }
      }
      assert acc + [a[0]] + a[1..] == acc + a;
      PutAllDistinct(acc + [a[0]], a[1..]);
    }
  }

  /** `foreach ($a as $k => $v) $acc[$k] = $v;` */
  function PutAll(acc: Pairs, a: Pairs): Pairs
    decreases |a|
  {
    if a == [] then acc else PutAll(Put(acc, a[0].0, a[0].1), a[1..])
  }
}
