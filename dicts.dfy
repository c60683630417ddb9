/** Python dictionaries as insertion-ordered association lists: assigning to
  * an existing key keeps its position, a new key goes to the end. */
module Dicts {
  import opened Wrappers

  type Dict<V> = seq<(string, V)>

  function Keys<V>(d: Dict<V>): (r: seq<string>)
    ensures |r| == |d|
    ensures forall i :: 0 <= i < |d| ==> r[i] == d[i].0
  {
    if |d| == 0 then [] else [d[0].0] + Keys(d[1..])
  }

  /** The keys are the sequence whose entries are the first components. */
  lemma KeysAre<V>(d: Dict<V>, ks: seq<string>)
    requires |ks| == |d|
    requires forall i :: 0 <= i < |d| ==> ks[i] == d[i].0
    ensures Keys(d) == ks
  {
  }

  /** The keys of `d` as a set. */
  function KeySet<V>(d: Dict<V>): (r: set<string>)
    ensures forall k :: k in r <==> k in Keys(d)
  {
    if |d| == 0 then {} else {d[0].0} + KeySet(d[1..])
  }

  /** `d.get(k)` */
  function Get<V>(d: Dict<V>, k: string): (r: Option<V>)
    ensures r.Some? <==> k in Keys(d)
  {
    if |d| == 0 then None
    else if d[0].0 == k then Some(d[0].1)
    else Get(d[1..], k)
  }

  predicate HasKey<V>(d: Dict<V>, k: string)
  {
    Get(d, k).Some?
  }

  /** `d[k] = v` */
  function Put<V>(d: Dict<V>, k: string, v: V): (r: Dict<V>)
    ensures Get(r, k) == Some(v)
    ensures forall k' :: k' != k ==> Get(r, k') == Get(d, k')
    ensures Keys(r) == if k in Keys(d) then Keys(d) else Keys(d) + [k]
  {
    if |d| == 0 then [(k, v)]
    else if d[0].0 == k then [(k, v)] + d[1..]
    else
      assert Keys(d) == [d[0].0] + Keys(d[1..]);
      [d[0]] + Put(d[1..], k, v)
  }

  /** `d.update(e)`: the entries of `e` assigned to `d` in order. */
  function Update<V>(d: Dict<V>, e: Dict<V>): (r: Dict<V>)
    ensures forall k :: k !in Keys(e) ==> Get(r, k) == Get(d, k)
    decreases |e|
  {
    if |e| == 0 then d
    else
      assert forall k :: k !in Keys(e) ==> k != e[0].0 && k !in Keys(e[1..]);
      Update(Put(d, e[0].0, e[0].1), e[1..])
  }

  /** Of several entries for one key in `e`, the last one is what `d` ends
    * up with. */
  lemma {:induction false} UpdateLastWins<V>(d: Dict<V>, e: Dict<V>, i: nat)
    requires i < |e|
    requires forall j :: i < j < |e| ==> e[j].0 != e[i].0
    ensures Get(Update(d, e), e[i].0) == Some(e[i].1)
    decreases |e|
  {
    if i == 0 {
      assert e[0].0 !in Keys(e[1..]);
    } else {
      UpdateLastWins(Put(d, e[0].0, e[0].1), e[1..], i - 1);
    }
  }

  /** Appending an entry for a new key leaves every other lookup alone. */
  lemma {:induction false} GetAppend<V>(d: Dict<V>, k: string, v: V, k': string)
    requires k !in Keys(d)
    ensures Get(d + [(k, v)], k') == if k' == k then Some(v) else Get(d, k')
    decreases |d|
  {
    if |d| > 0 {
      assert (d + [(k, v)])[1..] == d[1..] + [(k, v)];
      assert Keys(d) == [d[0].0] + Keys(d[1..]);
      GetAppend(d[1..], k, v, k');
    } else {
      assert d + [(k, v)] == [(k, v)];
    }
  }
}
