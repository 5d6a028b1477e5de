/** Python's insertion-ordered `dict` with string keys, as a sequence of
    key/value pairs. `Put` is `d[k] = v`: it overwrites the value of an
    existing key where it stands and appends a new key at the end. */
module Dicts {

  type Dict<V> = seq<(string, V)>

  /** The keys in iteration order. */
  function Keys<V>(d: Dict<V>): (ks: seq<string>)
    ensures |ks| == |d|
    ensures forall i {:trigger ks[i]} :: 0 <= i < |d| ==> ks[i] == d[i].0
    decreases |d|
  {
    if |d| == 0 then [] else [d[0].0] + Keys(d[1..])
  }

  /** `k in d` */
  predicate Has<V>(d: Dict<V>, k: string) {
    k in Keys(d)
  }

  /** `d[k]` */
  function Get<V>(d: Dict<V>, k: string): V
    requires Has(d, k)
    decreases |d|
  {
    if d[0].0 == k then d[0].1 else Get(d[1..], k)
  }

  /** `d.get(k, default)` */
  function GetOr<V>(d: Dict<V>, k: string, default: V): V {
    if Has(d, k) then Get(d, k) else default
  }

  /** No key is listed twice, as in every Python dict. */
  predicate UniqueKeys<V>(d: Dict<V>) {
    forall i, j :: 0 <= i < j < |d| ==> d[i].0 != d[j].0
  }

  /** `d[k] = v` */
  function Put<V>(d: Dict<V>, k: string, v: V): (r: Dict<V>)
    ensures Keys(r) == if Has(d, k) then Keys(d) else Keys(d) + [k]
    decreases |d|
  {
    if |d| == 0 then [(k, v)]
    else if d[0].0 == k then [(k, v)] + d[1..]
    else [d[0]] + Put(d[1..], k, v)
  }

  /** Reading a key after `d[k] = v`, whatever key is read. */
  lemma {:induction false} GetOrPut<V>(d: Dict<V>, k: string, v: V, k': string, default: V)
    ensures GetOr(Put(d, k, v), k', default) == if k' == k then v else GetOr(d, k', default)
    decreases |d|
  {
    if |d| > 0 && d[0].0 != k && d[0].0 != k' {
      GetOrPut(d[1..], k, v, k', default);
    }
  }

  /** Reading a present key after `d[k] = v`. */
  lemma GetPut<V>(d: Dict<V>, k: string, v: V, k': string)
    requires k' == k || Has(d, k')
    ensures Has(Put(d, k, v), k')
    ensures Get(Put(d, k, v), k') == if k' == k then v else Get(d, k')
  {
    GetOrPut(d, k, v, k', v);
  }

  /** Every pair of `Put(d, k, v)` is a pair of `d` or the new one. */
  lemma {:induction false} InPut<V>(d: Dict<V>, k: string, v: V, e: (string, V))
    requires e in Put(d, k, v)
    ensures e in d || e == (k, v)
    decreases |d|
  {
    if |d| > 0 && d[0].0 != k && e != d[0] {
      InPut(d[1..], k, v, e);
    }
  }

  /** The value `Get` finds for a key is stored under that key. */
  lemma {:induction false} GetIn<V>(d: Dict<V>, k: string)
    requires Has(d, k)
    ensures (k, Get(d, k)) in d
    decreases |d|
  {
    if d[0].0 != k {
      GetIn(d[1..], k);
    }
  }

  /** With unique keys, the value at a position is the value of its key. */
  lemma {:induction false} GetAt<V>(d: Dict<V>, i: int)
    requires UniqueKeys(d) && 0 <= i < |d|
    ensures Has(d, d[i].0) && Get(d, d[i].0) == d[i].1
    decreases |d|
  {
    assert Keys(d)[i] == d[i].0;
    if i > 0 {
      GetAt(d[1..], i - 1);
    }
  }

  /** `d[k] = v` keeps the keys unique. */
  lemma {:induction false} PutUnique<V>(d: Dict<V>, k: string, v: V)
    requires UniqueKeys(d)
    ensures UniqueKeys(Put(d, k, v))
  {
    var r := Put(d, k, v);
    forall i, j | 0 <= i < j < |r|
      ensures r[i].0 != r[j].0
    {
      assert Keys(r)[i] == r[i].0 && Keys(r)[j] == r[j].0;
      if j < |d| {
        assert Keys(d)[i] == d[i].0 && Keys(d)[j] == d[j].0;
      } else {
        assert !Has(d, k) && Keys(r)[j] == k;
        assert Keys(d)[i] == Keys(r)[i];
      }
    }
  }

  /** Overwriting a key with the value it already has changes nothing. */
  lemma {:induction false} PutSame<V>(d: Dict<V>, k: string)
    requires Has(d, k)
    ensures Put(d, k, Get(d, k)) == d
    decreases |d|
  {
    if d[0].0 != k {
      PutPutSame(d, k);
      PutSame(d[1..], k);
    }
  }

  // Helper for PutSame: the recursive case unfolds to the tail.
  lemma PutPutSame<V>(d: Dict<V>, k: string)
    requires Has(d, k) && d[0].0 != k
    ensures Has(d[1..], k) && Get(d, k) == Get(d[1..], k)
  {
  }

  /** Writing the same key twice keeps only the second value. */
  lemma {:induction false} PutPut<V>(d: Dict<V>, k: string, v: V, w: V)
    ensures Put(Put(d, k, v), k, w) == Put(d, k, w)
    decreases |d|
  {
    if |d| > 0 && d[0].0 != k {
      PutPut(d[1..], k, v, w);
    }
  }

  /** `d[k] = v` on a missing key appends the pair at the end. */
  lemma {:induction false} PutNew<V>(d: Dict<V>, k: string, v: V)
    requires !Has(d, k)
    ensures Put(d, k, v) == d + [(k, v)]
    decreases |d|
  {
    if |d| > 0 {
      assert Keys(d) == [d[0].0] + Keys(d[1..]);
      PutNew(d[1..], k, v);
      assert d == [d[0]] + d[1..];
    }
  }

  /** The position `Get` reads a present key from: its first occurrence. */
  lemma {:induction false} FirstIndex<V>(d: Dict<V>, k: string) returns (i: int)
    requires Has(d, k)
    ensures 0 <= i < |d| && d[i].0 == k && Get(d, k) == d[i].1
    ensures forall j :: 0 <= j < i ==> d[j].0 != k
    decreases |d|
  {
    if d[0].0 == k {
      i := 0;
    } else {
      assert Keys(d) == [d[0].0] + Keys(d[1..]);
      var i' := FirstIndex(d[1..], k);
      i := i' + 1;
      forall j | 0 <= j < i
        ensures d[j].0 != k
      {
        if j > 0 {
          assert d[j] == d[1..][j - 1];
        }
      }
    }
  }
}
