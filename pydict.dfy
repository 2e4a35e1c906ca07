/**
 * Python dicts with string keys as the pipeline uses them: insertion-ordered
 * association lists, where `d[k] = v` replaces the value of an existing key
 * in place and appends a new key at the end.
 */
module PyDict {
  import opened Wrappers

  function Keys<V>(d: seq<(string, V)>): seq<string>
  {
    seq(|d|, i requires 0 <= i < |d| => d[i].0)
  }

  predicate DistinctKeys<V>(d: seq<(string, V)>)
  {
    forall i, j :: 0 <= i < j < |d| ==> d[i].0 != d[j].0
  }

  /** The position of key `k`, if present (the first one, were there several). */
  function KeyIndex<V>(d: seq<(string, V)>, k: string): (r: Option<nat>)
    ensures r.Some? ==> r.value < |d| && d[r.value].0 == k && forall j :: 0 <= j < r.value ==> d[j].0 != k
    ensures r.None? ==> forall j :: 0 <= j < |d| ==> d[j].0 != k
  {
    if d == [] then None
    else if d[0].0 == k then Some(0)
    else match KeyIndex(d[1..], k)
      case None => None
      case Some(i) => Some(i + 1)
  }

  /** The first position holding `k` is the one `KeyIndex` finds. */
  lemma KeyIndexIs<V>(d: seq<(string, V)>, k: string, i: nat)
    requires i < |d| && d[i].0 == k && forall j :: 0 <= j < i ==> d[j].0 != k
    ensures KeyIndex(d, k) == Some(i)
  {
  }

  /** `d[k] = v`. */
  function Put<V>(d: seq<(string, V)>, k: string, v: V): (r: seq<(string, V)>)
    ensures Keys(r) == if k in Keys(d) then Keys(d) else Keys(d) + [k]
    ensures k !in Keys(d) ==> r == d + [(k, v)]
    ensures DistinctKeys(d) ==> DistinctKeys(r)
    ensures k in Keys(r) && Lookup(r, k) == v
    ensures |r| >= |d| && forall j :: 0 <= j < |d| && d[j].0 != k ==> r[j] == d[j]
    ensures forall j :: 0 <= j < |r| ==> r[j] == (k, v) || (j < |d| && r[j] == d[j])
  {
    match KeyIndex(d, k)
    case Some(i) =>
      assert Keys(d)[i] == k;
      assert Keys(d[i := (k, v)]) == Keys(d);
      assert KeyIndex(d[i := (k, v)], k) == Some(i) by {
        KeyIndexIs(d[i := (k, v)], k, i);
      }
      d[i := (k, v)]
    case None =>
      assert Keys(d + [(k, v)])[|d|] == k;
      assert KeyIndex(d + [(k, v)], k) == Some(|d|) by {
        KeyIndexIs(d + [(k, v)], k, |d|);
      }
      d + [(k, v)]
  }

  /** `d[k]` for a key that is present. */
  function Lookup<V>(d: seq<(string, V)>, k: string): V
    requires k in Keys(d)
  {
    assert KeyIndex(d, k).Some?;
    d[KeyIndex(d, k).value].1
  }

  lemma LookupAt<V>(d: seq<(string, V)>, i: nat)
    requires DistinctKeys(d) && i < |d|
    ensures d[i].0 in Keys(d) && Lookup(d, d[i].0) == d[i].1
  {
    assert Keys(d)[i] == d[i].0;
  }

  lemma LookupAppend<V>(d: seq<(string, V)>, e: seq<(string, V)>, k: string)
    requires k in Keys(d)
    ensures k in Keys(d + e) && Lookup(d + e, k) == Lookup(d, k)
  {
    assert KeyIndex(d, k).Some?;
    var i := KeyIndex(d, k).value;
    assert Keys(d + e)[i] == k;
    assert KeyIndex(d + e, k).Some?;
    var j := KeyIndex(d + e, k).value;
    assert (d + e)[i].0 == k;
    assert j <= i;
    assert d[j] == (d + e)[j];
  }
}
