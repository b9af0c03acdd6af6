// Python dictionaries keyed by strings, as ordered association lists:
// `d[k] = v` replaces the value in place when `k` is present (the key keeps
// its first position) and appends otherwise, so iteration order is the
// order of first insertion and the value is the last one written.

module PyDict {
  import opened Common

  type Dict<V> = seq<(string, V)>

  /** No key occurs twice: true of every dictionary built with `Put`. */
  predicate DistinctKeys<V>(d: Dict<V>)
  {
    forall i, j :: 0 <= i < j < |d| ==> d[i].0 != d[j].0
  }

  /** The keys, in order (`list(d)`). */
  function KeysOf<V>(d: Dict<V>): (r: seq<string>)
    ensures |r| == |d|
    ensures forall i :: 0 <= i < |d| ==> r[i] == d[i].0
  {
    if d == [] then [] else [d[0].0] + KeysOf(d[1..])
  }

  /** The values, in order (`d.values()`). */
  function ValuesOf<V>(d: Dict<V>): (r: seq<V>)
    ensures |r| == |d|
    ensures forall i :: 0 <= i < |d| ==> r[i] == d[i].1
  {
    seq(|d|, i requires 0 <= i < |d| => d[i].1)
  }

  /** `d.get(k)`. */
  function Get<V>(d: Dict<V>, k: string): (r: Option<V>)
    ensures r.None? <==> k !in KeysOf(d)
  {
    if d == [] then None
    else if d[0].0 == k then Some(d[0].1)
    else Get(d[1..], k)
  }

  /** A key that is present reads a value stored under it. */
  lemma {:induction false} GetFound<V>(d: Dict<V>, k: string)
    requires k in KeysOf(d)
    ensures exists i :: 0 <= i < |d| && d[i] == (k, Get(d, k).value)
  {
    if d[0].0 != k {
      GetFound(d[1..], k);
      var i :| 0 <= i < |d[1..]| && d[1..][i] == (k, Get(d, k).value);
      assert d[i + 1] == d[1..][i];
    }
  }

  /** With distinct keys, the value at a key's position is the one read. */
  lemma {:induction false} GetAt<V>(d: Dict<V>, i: nat)
    requires DistinctKeys(d) && i < |d|
    ensures Get(d, d[i].0) == Some(d[i].1)
  {
    if i > 0 {
      GetAt(d[1..], i - 1);
    }
  }

  /** `d[k] = v`. */
  function Put<V>(d: Dict<V>, k: string, v: V): (r: Dict<V>)
  {
    if d == [] then [(k, v)]
    else if d[0].0 == k then [(k, v)] + d[1..]
    else [d[0]] + Put(d[1..], k, v)
  }

  /** After `d[k] = v`, `k` reads `v` and every other key reads as before. */
  lemma {:induction false} PutGet<V>(d: Dict<V>, k: string, v: V)
    ensures Get(Put(d, k, v), k) == Some(v)
    ensures forall j :: j != k ==> Get(Put(d, k, v), j) == Get(d, j)
  {
    if d != [] && d[0].0 != k {
      PutGet(d[1..], k, v);
    }
  }

  /** `d[k] = v` keeps the order of existing keys and appends a new one. */
  lemma {:induction false} PutKeys<V>(d: Dict<V>, k: string, v: V)
    ensures k in KeysOf(d) ==> KeysOf(Put(d, k, v)) == KeysOf(d)
    ensures k !in KeysOf(d) ==> Put(d, k, v) == d + [(k, v)] && KeysOf(Put(d, k, v)) == KeysOf(d) + [k]
  {
    if d != [] && d[0].0 != k {
      PutKeys(d[1..], k, v);
      assert KeysOf(Put(d, k, v)) == [d[0].0] + KeysOf(Put(d[1..], k, v));
      if k !in KeysOf(d) {
        assert d == [d[0]] + d[1..];
        assert KeysOf(d) == [d[0].0] + KeysOf(d[1..]);
      }
    }
  }

  /** `d[k] = v` never duplicates a key. */
  lemma PutDistinct<V>(d: Dict<V>, k: string, v: V)
    requires DistinctKeys(d)
    ensures DistinctKeys(Put(d, k, v))
  {
    PutKeys(d, k, v);
    var r := Put(d, k, v);
    if k in KeysOf(d) {
      assert forall i :: 0 <= i < |r| ==> r[i].0 == KeysOf(r)[i] == KeysOf(d)[i] == d[i].0;
    } else {
      forall i, j | 0 <= i < j < |r| ensures r[i].0 != r[j].0 {
        if j == |d| {
          assert d[i].0 in KeysOf(d);
        }
      }
    }
  }

  /** After `d[k] = v`, `k` reads `v`, every other key reads as before, no key is duplicated, and the order of existing keys is kept. */
  lemma PutMeans<V>(d: Dict<V>, k: string, v: V)
    ensures Get(Put(d, k, v), k) == Some(v)
    ensures forall j :: j != k ==> Get(Put(d, k, v), j) == Get(d, j)
    ensures k in KeysOf(d) ==> KeysOf(Put(d, k, v)) == KeysOf(d)
    ensures k !in KeysOf(d) ==> Put(d, k, v) == d + [(k, v)]
    ensures DistinctKeys(d) ==> DistinctKeys(Put(d, k, v))
  {
    PutGet(d, k, v);
    PutKeys(d, k, v);
    if DistinctKeys(d) {
      PutDistinct(d, k, v);
    }
  }

  /** A run of writes `for k, v in items: d[k] = v`. */
  function PutAll<V>(d: Dict<V>, items: seq<(string, V)>): Dict<V>
    decreases |items|
  {
    if items == [] then d else PutAll(Put(d, items[0].0, items[0].1), items[1..])
  }

  /** The value last written to `k` by a run of writes, if any. */
  function LastFor<V>(items: seq<(string, V)>, k: string): (r: Option<V>)
  {
    if items == [] then None
    else if items[|items| - 1].0 == k then Some(items[|items| - 1].1)
    else LastFor(items[..|items| - 1], k)
  }

  /** `LastFor` finds nothing exactly when the key is never written. */
  lemma {:induction false} LastForNone<V>(items: seq<(string, V)>, k: string)
    ensures LastFor(items, k).None? <==> k !in KeysOf(items)
  {
    if items != [] {
      var front, x := items[..|items| - 1], items[|items| - 1];
      KeysOfSnoc(front, x);
      assert items == front + [x];
      if x.0 != k {
        LastForNone(front, k);
      }
    }
  }

  /** The keys of a run with one more write end in that write's key. */
  lemma KeysOfSnoc<V>(front: seq<(string, V)>, x: (string, V))
    ensures KeysOf(front + [x]) == KeysOf(front) + [x.0]
  {
    var a, b := KeysOf(front + [x]), KeysOf(front) + [x.0];
    assert |a| == |b|;
    forall i | 0 <= i < |a|
      ensures a[i] == b[i]
    {
      if i < |front| {
        assert (front + [x])[i] == front[i];
      }
    }
  }

  /** What `LastFor` finds is the value of the key's last write. */
  lemma {:induction false} LastForIndex<V>(items: seq<(string, V)>, k: string) returns (i: nat)
    requires LastFor(items, k).Some?
    ensures i < |items| && items[i] == (k, LastFor(items, k).value)
    ensures forall j :: i < j < |items| ==> items[j].0 != k
  {
    if items[|items| - 1].0 == k {
      i := |items| - 1;
    } else {
      var front := items[..|items| - 1];
      i := LastForIndex(front, k);
      assert items[i] == front[i];
    }
  }

  /** Writing a run in two parts is writing the whole run. */
  lemma {:induction false} PutAllAppend<V>(d: Dict<V>, a: seq<(string, V)>, b: seq<(string, V)>)
    ensures PutAll(d, a + b) == PutAll(PutAll(d, a), b)
    decreases |a|
  {
    if a != [] {
      assert (a + b)[0] == a[0];
      assert (a + b)[1..] == a[1..] + b;
      PutAllAppend(Put(d, a[0].0, a[0].1), a[1..], b);
    } else {
      assert a + b == b;
    }
  }

  /** One more write at the end of a run. */
  lemma PutAllSnoc<V>(d: Dict<V>, items: seq<(string, V)>, x: (string, V))
    ensures PutAll(d, items + [x]) == Put(PutAll(d, items), x.0, x.1)
  {
    PutAllAppend(d, items, [x]);
    assert PutAll(PutAll(d, items), [x]) == PutAll(Put(PutAll(d, items), x.0, x.1), []);
  }

  /** The last write to a key wins; keys never written read as before. */
  lemma {:induction false} PutAllGet<V>(d: Dict<V>, items: seq<(string, V)>, k: string)
    ensures Get(PutAll(d, items), k) == if LastFor(items, k).Some? then LastFor(items, k) else Get(d, k)
    decreases |items|
  {
    if items != [] {
      var front := items[..|items| - 1];
      var last := items[|items| - 1];
      assert items == front + [last];
      PutAllSnoc(d, front, last);
      PutAllGet(d, front, k);
      PutGet(PutAll(d, front), last.0, last.1);
    }
  }

  /** A run of writes keeps keys distinct and adds exactly the written keys. */
  lemma {:induction false} PutAllKeys<V>(d: Dict<V>, items: seq<(string, V)>)
    ensures DistinctKeys(d) ==> DistinctKeys(PutAll(d, items))
    ensures forall k :: k in KeysOf(PutAll(d, items)) <==> k in KeysOf(d) || k in KeysOf(items)
    decreases |items|
  {
    if items != [] {
      var front := items[..|items| - 1];
      var last := items[|items| - 1];
      assert items == front + [last];
      PutAllSnoc(d, front, last);
      PutAllKeys(d, front);
      var mid := PutAll(d, front);
      PutKeys(mid, last.0, last.1);
      if DistinctKeys(d) {
        PutDistinct(mid, last.0, last.1);
      }
      assert KeysOf(items) == KeysOf(front) + [last.0] by {
        assert forall i :: 0 <= i < |front| ==> KeysOf(front)[i] == items[i].0;
      }
    }
  }
}
