/** How the document store answers the handlers' queries: a single-record
    query (find one, update one, delete one) picks the first record whose key
    matches, and a listing returns at most a fixed number of records. */
module Search {
  import opened HotelTypes

  /** Position of the first occurrence of k in keys, if any. */
  function FirstIndex<K(==)>(keys: seq<K>, k: K): (r: Option<nat>)
    ensures r.None? <==> k !in keys
    ensures r.Some? ==> r.value < |keys| && keys[r.value] == k && k !in keys[..r.value]
  {
    if |keys| == 0 then None
    else if keys[0] == k then Some(0)
    else
      match FirstIndex(keys[1..], k)
      case None => None
      case Some(i) =>
        assert keys[..i + 1] == [keys[0]] + keys[1..][..i];
        Some(i + 1)
  }

  /** An occurrence with no earlier one is the one FirstIndex finds. */
  lemma FirstIndexIsFirst<K>(keys: seq<K>, k: K, i: nat)
    requires i < |keys| && keys[i] == k && k !in keys[..i]
    ensures FirstIndex(keys, k) == Some(i)
  {
    var r := FirstIndex(keys, k);
    assert keys[i] in keys;
    var j := r.value;
    forall y | 0 <= y < i ensures keys[y] != k {
      assert keys[..i][y] == keys[y];
    }
    forall y | 0 <= y < j ensures keys[y] != k {
      assert keys[..j][y] == keys[y];
    }
  }

  /** The query loop: scan the keys in order and stop at the first match. */
  method Find<K(==)>(keys: seq<K>, k: K) returns (r: Option<nat>)
    ensures r == FirstIndex(keys, k)
  {
    var i := 0;
    while i < |keys|
      invariant 0 <= i <= |keys|
      invariant k !in keys[..i]
    {
      if keys[i] == k {
        FirstIndexIsFirst(keys, k, i);
        return Some(i);
      }
      assert keys[..i + 1] == keys[..i] + [keys[i]];
      i := i + 1;
    }
    assert keys[..i] == keys;
    return None;
  }

  /** The first n records of a listing, or all of them when there are fewer. */
  function Cap<T>(s: seq<T>, n: nat): (r: seq<T>)
    ensures |r| <= n && |r| <= |s|
    ensures |s| <= n ==> r == s
    ensures |s| > n ==> |r| == n
    ensures r == s[..|r|]
  {
    if |s| <= n then s else s[..n]
  }
}
