/** A Python `dict` with string keys, as an association sequence in insertion
    order. Assigning to a key that is already present replaces its value where it
    stands; a new key goes at the end. */
module Assoc {
  import opened Common

  type Entries<V> = seq<(string, V)>

  /** No key occurs twice, as in a `dict`. */
  ghost predicate UniqueKeys<V>(m: Entries<V>)
  {
    forall i, j :: 0 <= i < j < |m| ==> m[i].0 != m[j].0
  }

  /** Position of key `k`, or `|m|` when `k` is absent. */
  function IndexOf<V>(m: Entries<V>, k: string): (i: nat)
    ensures i <= |m|
    ensures i < |m| ==> m[i].0 == k
    ensures forall j :: 0 <= j < i ==> m[j].0 != k
    decreases |m|
  {
    if |m| == 0 then 0
    else if m[0].0 == k then 0
    else 1 + IndexOf(m[1..], k)
  }

  /** Python `k in d`. */
  predicate HasKey<V>(m: Entries<V>, k: string)
  {
    IndexOf(m, k) < |m|
  }

  lemma HasKeyAt<V>(m: Entries<V>, k: string, i: int)
    requires 0 <= i < |m| && m[i].0 == k
    ensures HasKey(m, k)
  {
  }

  /** `k in d` holds exactly when some entry has key `k`. */
  lemma HasKeyIff<V>(m: Entries<V>, k: string)
    ensures HasKey(m, k) <==> exists i :: 0 <= i < |m| && m[i].0 == k
  {
    if !HasKey(m, k) {
      assert forall j :: 0 <= j < |m| ==> m[j].0 != k;
    }
  }

  /** Python `d[k]`. */
  function Get<V>(m: Entries<V>, k: string): V
    requires HasKey(m, k)
  {
    m[IndexOf(m, k)].1
  }

  /** `d[k]` is the value of an entry with key `k`, and with unique keys the value of every such entry. */
  lemma GetFound<V>(m: Entries<V>, k: string)
    requires HasKey(m, k)
    ensures (k, Get(m, k)) in m
    ensures UniqueKeys(m) ==> forall i :: 0 <= i < |m| && m[i].0 == k ==> m[i].1 == Get(m, k)
  {
    var n := IndexOf(m, k);
    assert m[n] == (k, Get(m, k));
    if UniqueKeys(m) {
      forall i | 0 <= i < |m| && m[i].0 == k
        ensures m[i].1 == Get(m, k)
      {
        assert i == n;
      }
    }
  }

  /** Python `d.get(k)`: the value, or `None` when `k` is absent. */
  function Lookup<V>(m: Entries<V>, k: string): (r: Option<V>)
    ensures r.Some? <==> HasKey(m, k)
    ensures r.Some? ==> r.value == Get(m, k)
  {
    if HasKey(m, k) then Some(Get(m, k)) else None
  }

  /** Python `d.get(k, default)`. */
  function GetOr<V>(m: Entries<V>, k: string, default: V): (r: V)
    ensures HasKey(m, k) ==> r == Get(m, k)
    ensures !HasKey(m, k) ==> r == default
  {
    if HasKey(m, k) then Get(m, k) else default
  }

  /** The keys in insertion order. */
  function Keys<V>(m: Entries<V>): (ks: seq<string>)
    ensures |ks| == |m|
    ensures forall i :: 0 <= i < |m| ==> ks[i] == m[i].0
  {
    seq(|m|, i requires 0 <= i < |m| => m[i].0)
  }

  /** Python `d[k] = v`. */
  function Put<V>(m: Entries<V>, k: string, v: V): (r: Entries<V>)
    ensures HasKey(m, k) ==> r == m[IndexOf(m, k) := (k, v)]
    ensures !HasKey(m, k) ==> r == m + [(k, v)]
    ensures HasKey(r, k) && Get(r, k) == v
    ensures forall k' :: k' != k ==> HasKey(r, k') == HasKey(m, k')
    ensures forall k' :: k' != k && HasKey(m, k') ==> Get(r, k') == Get(m, k')
    ensures UniqueKeys(m) ==> UniqueKeys(r)
  {
    var i := IndexOf(m, k);
    if i < |m| then
      var r := m[i := (k, v)];
      IndexOfUnchanged(m, r, k);
      assert forall k' :: k' != k ==> IndexOf(r, k') == IndexOf(m, k') by {
        forall k' | k' != k ensures IndexOf(r, k') == IndexOf(m, k') {
          IndexOfUnchanged(m, r, k');
        }
      }
      r
    else
      var r := m + [(k, v)];
      assert forall k' :: k' != k ==> IndexOf(r, k') == IndexOf(m, k') || (IndexOf(m, k') == |m| && IndexOf(r, k') == |r|) by {
        forall k' | k' != k ensures IndexOf(r, k') == IndexOf(m, k') || (IndexOf(m, k') == |m| && IndexOf(r, k') == |r|) {
          IndexOfExtended(m, k, v, k');
        }
      }
      assert IndexOf(r, k) == |m| by { IndexOfAt(r, k, |m|); }
      r
  }

  lemma IndexOfAt<V>(m: Entries<V>, k: string, i: nat)
    requires i < |m| && m[i].0 == k
    requires forall j :: 0 <= j < i ==> m[j].0 != k
    ensures IndexOf(m, k) == i
  {
  }

  /** Changing the value of an entry does not move any key. */
  lemma IndexOfUnchanged<V>(m: Entries<V>, r: Entries<V>, k: string)
    requires |r| == |m|
    requires forall j :: 0 <= j < |m| ==> r[j].0 == m[j].0
    ensures IndexOf(r, k) == IndexOf(m, k)
  {
    var i := IndexOf(m, k);
    if i < |m| {
      IndexOfAt(r, k, i);
    } else {
      assert forall j :: 0 <= j < |r| ==> r[j].0 != k;
    }
  }

  lemma IndexOfExtended<V>(m: Entries<V>, k: string, v: V, k': string)
    requires k' != k
    ensures var r := m + [(k, v)];
      IndexOf(r, k') == IndexOf(m, k') || (IndexOf(m, k') == |m| && IndexOf(r, k') == |r|)
  {
    var r := m + [(k, v)];
    var i := IndexOf(m, k');
    if i < |m| {
      IndexOfAt(r, k', i);
    } else {
      assert forall j :: 0 <= j < |r| ==> r[j].0 != k';
    }
  }

  /** Writing a key twice keeps only the second value, at the first write's place. */
  lemma PutPut<V>(m: Entries<V>, k: string, v: V, w: V)
    ensures Put(Put(m, k, v), k, w) == Put(m, k, w)
  {
    var i := IndexOf(m, k);
    if i == |m| {
      IndexOfAt(m + [(k, v)], k, |m|);
    } else {
      IndexOfUnchanged(m, m[i := (k, v)], k);
    }
  }
}
