/** A PHP array with string keys, as an insertion-ordered sequence of
    key/value entries. Assigning `$a[$k] = $v` replaces the value of an
    existing key in place and appends a new key at the end. */
module OrderedMap {
  import opened Wrappers

  type Entries<V> = seq<(string, V)>

  function Keys<V>(m: Entries<V>): seq<string> {
    seq(|m|, i requires 0 <= i < |m| => m[i].0)
  }

  /** Every key occurs at most once, as in any PHP array. */
  predicate DistinctKeys<V>(m: Entries<V>) {
    forall i, j :: 0 <= i < j < |m| ==> m[i].0 != m[j].0
  }

  /** Position of the first entry with key `k`, or `|m|` when there is none. */
  function IndexOf<V>(m: Entries<V>, k: string): (i: nat)
    ensures i <= |m|
    ensures i < |m| ==> m[i].0 == k
    ensures forall j :: 0 <= j < i ==> m[j].0 != k
  {
    if |m| == 0 then 0 else if m[0].0 == k then 0 else 1 + IndexOf(m[1..], k)
  }

  /** `$a[$k] ?? null`. */
  function Get<V>(m: Entries<V>, k: string): Option<V> {
    var i := IndexOf(m, k);
    if i < |m| then Some(m[i].1) else None
  }

  lemma IndexOfIsFirst<V>(m: Entries<V>, k: string, i: nat)
    requires i <= |m|
    requires i < |m| ==> m[i].0 == k
    requires forall j :: 0 <= j < i ==> m[j].0 != k
    ensures IndexOf(m, k) == i
  {
  }

  /** `$a[$k] = $v`. */
  function Put<V>(m: Entries<V>, k: string, v: V): (r: Entries<V>)
    ensures Get(r, k) == Some(v)
    ensures forall k' :: k' != k ==> Get(r, k') == Get(m, k')
    ensures Keys(r) == if k in Keys(m) then Keys(m) else Keys(m) + [k]
    ensures k in Keys(m) ==> |r| == |m| && forall i :: 0 <= i < |m| && m[i].0 != k ==> r[i] == m[i]
    ensures k !in Keys(m) ==> r == m + [(k, v)]
    ensures forall e :: e in r ==> e in m || e == (k, v)
  {
    var i := IndexOf(m, k);
    if i < |m| then
      var r := m[i := (k, v)];
      assert Keys(m)[i] == k;
      assert Keys(r) == Keys(m);
      IndexOfIsFirst(r, k, i);
      forall k' | k' != k
        ensures Get(r, k') == Get(m, k')
      {
        IndexOfIsFirst(r, k', IndexOf(m, k'));
      }
      r
    else
      var r := m + [(k, v)];
      assert k !in Keys(m);
      IndexOfIsFirst(r, k, |m|);
      forall k' | k' != k
        ensures Get(r, k') == Get(m, k')
      {
        var j := IndexOf(m, k');
        if j < |m| {
          IndexOfIsFirst(r, k', j);
        } else {
          IndexOfIsFirst(r, k', |r|);
        }
      }
      r
  }

  /** Assignment keeps the keys of a PHP array distinct. */
  lemma PutKeepsKeysDistinct<V>(m: Entries<V>, k: string, v: V)
    requires DistinctKeys(m)
    ensures DistinctKeys(Put(m, k, v))
  {
    var r := Put(m, k, v);
    if k in Keys(m) {
      assert forall i :: 0 <= i < |r| ==> r[i].0 == Keys(r)[i] == Keys(m)[i] == m[i].0;
    } else {
      assert forall i :: 0 <= i < |m| ==> m[i].0 == Keys(m)[i] != k;
    }
  }

  /** Assigning a key the value it already holds changes nothing. */
  lemma PutSameValue<V>(m: Entries<V>, k: string, v: V)
    requires Get(m, k) == Some(v)
    ensures Put(m, k, v) == m
  {
    var i := IndexOf(m, k);
    assert m[i] == (k, v);
    assert m[i := (k, v)] == m;
  }
}
