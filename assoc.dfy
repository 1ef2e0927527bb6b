/**
 * A Python dict as an ordered association list: iteration order is insertion
 * order, overwriting a key keeps its first position, deleting a key closes the gap.
 */
module AssocList {
  import opened Results

  predicate DistinctKeys<K(==), V>(e: seq<(K, V)>)
  {
    forall i, j :: 0 <= i < j < |e| ==> e[i].0 != e[j].0
  }

  function KeysOf<K(==), V>(e: seq<(K, V)>): (ks: seq<K>)
    ensures |ks| == |e| && forall i :: 0 <= i < |e| ==> ks[i] == e[i].0
  {
    seq(|e|, i requires 0 <= i < |e| => e[i].0)
  }

  predicate HasKey<K(==), V>(e: seq<(K, V)>, k: K)
  {
    exists i :: 0 <= i < |e| && e[i].0 == k
  }

  /** Position of the first entry with key k. */
  function Find<K(==), V>(e: seq<(K, V)>, k: K): (r: Option<nat>)
    ensures r.Some? ==> r.value < |e| && e[r.value].0 == k
    ensures r.Some? ==> forall j :: 0 <= j < r.value ==> e[j].0 != k
    ensures r.None? <==> !HasKey(e, k)
    decreases |e|
  {
    if e == [] then None
    else if e[0].0 == k then Some(0)
    else match Find(e[1..], k)
      case None => None
      case Some(i) => Some(i + 1)
  }

  /** `d[k]` without the exception: the value stored under k, if any. */
  function Lookup<K(==), V>(e: seq<(K, V)>, k: K): Option<V>
  {
    match Find(e, k)
    case None => None
    case Some(i) => Some(e[i].1)
  }

  /** `d[k] = v`: overwrite in place when k is present, append otherwise. */
  function Put<K(==), V>(e: seq<(K, V)>, k: K, v: V): seq<(K, V)>
  {
    match Find(e, k)
    case Some(i) => e[i := (k, v)]
    case None => e + [(k, v)]
  }

  /** `del d[k]` for a key that is present. */
  function Remove<K(==), V>(e: seq<(K, V)>, k: K): seq<(K, V)>
  {
    match Find(e, k)
    case Some(i) => e[..i] + e[i + 1..]
    case None => e
  }

  lemma FindDistinct<K, V>(e: seq<(K, V)>, i: nat)
    requires DistinctKeys(e) && i < |e|
    ensures Find(e, e[i].0) == Some(i)
    ensures Lookup(e, e[i].0) == Some(e[i].1)
  {
  }

  /** Find reports m when m is the first entry with key k. */
  lemma FindFirst<K, V>(r: seq<(K, V)>, k: K, m: nat)
    requires m < |r| && r[m].0 == k
    requires forall j :: 0 <= j < m ==> r[j].0 != k
    ensures Find(r, k) == Some(m)
  {
  }

  /** Find reports None when no entry has key k. */
  lemma FindNone<K, V>(r: seq<(K, V)>, k: K)
    requires forall j :: 0 <= j < |r| ==> r[j].0 != k
    ensures Find(r, k) == None
  {
  }

  /** After `d[k] = v`, `d[k]` is v and every other key reads as before. */
  lemma PutLookup<K, V>(e: seq<(K, V)>, k: K, v: V, k': K)
    ensures Lookup(Put(e, k, v), k') == if k' == k then Some(v) else Lookup(e, k')
  {
    match Find(e, k)
    case Some(i) => OverwriteLookup(e, k, v, k', i);
    case None => AppendLookup(e, k, v, k');
  }

  lemma OverwriteLookup<K, V>(e: seq<(K, V)>, k: K, v: V, k': K, i: nat)
    requires Find(e, k) == Some(i)
    ensures Lookup(e[i := (k, v)], k') == if k' == k then Some(v) else Lookup(e, k')
  {
    var r := e[i := (k, v)];
    if k' == k {
      FindFirst(r, k, i);
    } else {
      match Find(e, k')
      case None =>
        forall j | 0 <= j < |r| ensures r[j].0 != k' { if j != i { assert r[j] == e[j]; } }
        FindNone(r, k');
      case Some(m) =>
        assert m != i && r[m] == e[m];
        forall j | 0 <= j < m ensures r[j].0 != k' { if j != i { assert r[j] == e[j]; } }
        FindFirst(r, k', m);
    }
  }

  lemma AppendLookup<K, V>(e: seq<(K, V)>, k: K, v: V, k': K)
    requires Find(e, k) == None
    ensures Lookup(e + [(k, v)], k') == if k' == k then Some(v) else Lookup(e, k')
  {
    var r := e + [(k, v)];
    if k' == k {
      forall j | 0 <= j < |e| ensures r[j].0 != k { assert r[j] == e[j]; }
      FindFirst(r, k, |e|);
    } else {
      match Find(e, k')
      case None =>
        forall j | 0 <= j < |r| ensures r[j].0 != k' { if j < |e| { assert r[j] == e[j]; } }
        FindNone(r, k');
      case Some(m) =>
        assert r[m] == e[m];
        forall j | 0 <= j < m ensures r[j].0 != k' { assert r[j] == e[j]; }
        FindFirst(r, k', m);
    }
  }

  /**
   * Shape of `d[k] = v`: an existing key keeps its position and the length is
   * unchanged; a new key is appended; all other entries stay.
   */
  lemma PutShape<K, V>(e: seq<(K, V)>, k: K, v: V)
    ensures HasKey(e, k) ==> |Put(e, k, v)| == |e| && Put(e, k, v)[Find(e, k).value] == (k, v)
    ensures !HasKey(e, k) ==> Put(e, k, v) == e + [(k, v)]
    ensures forall j :: 0 <= j < |e| && e[j].0 != k ==> Put(e, k, v)[j] == e[j]
    ensures KeysOf(Put(e, k, v))[..|e|] == KeysOf(e)
  {
  }

  lemma PutDistinct<K, V>(e: seq<(K, V)>, k: K, v: V)
    requires DistinctKeys(e)
    ensures DistinctKeys(Put(e, k, v))
  {
  }

  /** Dropping entry i shifts every later entry down by one and keeps the earlier ones. */
  lemma DropIndex<K, V>(e: seq<(K, V)>, i: nat)
    requires i < |e|
    ensures |e[..i] + e[i + 1..]| == |e| - 1
    ensures forall j :: 0 <= j < i ==> (e[..i] + e[i + 1..])[j] == e[j]
    ensures forall j :: i < j < |e| ==> (e[..i] + e[i + 1..])[j - 1] == e[j]
  {
  }

  /** With distinct keys, dropping entry i keeps them distinct and leaves none with key e[i].0. */
  lemma DropIndexDistinct<K, V>(e: seq<(K, V)>, i: nat)
    requires DistinctKeys(e) && i < |e|
    ensures DistinctKeys(e[..i] + e[i + 1..])
    ensures !HasKey(e[..i] + e[i + 1..], e[i].0)
  {
    DropIndex(e, i);
    var r := e[..i] + e[i + 1..];
    forall a, b | 0 <= a < b < |r| ensures r[a].0 != r[b].0 {
      var a' := if a < i then a else a + 1;
      var b' := if b < i then b else b + 1;
      assert r[a] == e[a'] && r[b] == e[b'];
    }
    forall j | 0 <= j < |r| ensures r[j].0 != e[i].0 {
      var j' := if j < i then j else j + 1;
      assert r[j] == e[j'];
    }
  }

  /** Dropping entry i does not change what any other key reads. */
  lemma DropIndexLookup<K, V>(e: seq<(K, V)>, i: nat, k': K)
    requires DistinctKeys(e) && i < |e| && k' != e[i].0
    ensures Lookup(e[..i] + e[i + 1..], k') == Lookup(e, k')
  {
    DropIndex(e, i);
    DropIndexDistinct(e, i);
    var r := e[..i] + e[i + 1..];
    match Find(e, k')
    case None =>
      forall j | 0 <= j < |r| ensures r[j].0 != k' {
        var j' := if j < i then j else j + 1;
        assert r[j] == e[j'];
      }
    case Some(m) =>
      var m' := if m < i then m else m - 1;
      assert r[m'] == e[m];
      FindDistinct(r, m');
  }

  /** After `del d[k]`, k is gone, the other keys read as before and keep their relative order. */
  lemma RemoveLookup<K, V>(e: seq<(K, V)>, k: K, k': K)
    requires DistinctKeys(e) && HasKey(e, k)
    ensures DistinctKeys(Remove(e, k))
    ensures |Remove(e, k)| == |e| - 1
    ensures Lookup(Remove(e, k), k') == if k' == k then None else Lookup(e, k')
    ensures Remove(e, k) == e[..Find(e, k).value] + e[Find(e, k).value + 1..]
  {
    var i := Find(e, k).value;
    assert Remove(e, k) == e[..i] + e[i + 1..];
    DropIndex(e, i);
    DropIndexDistinct(e, i);
    if k' != k {
      DropIndexLookup(e, i, k');
    }
  }
}
