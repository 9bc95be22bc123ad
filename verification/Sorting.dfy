/** Sorting a set of part indexes, as sort.Slice and sort.Ints do for the keys of a map. */
module Sorting {
  import opened Bytes

  ghost predicate Sorts(sorted: seq<nat>, keys: set<nat>) {
    && (forall i, j :: 0 <= i < j < |sorted| ==> sorted[i] < sorted[j])
    && (forall k :: k in sorted <==> k in keys)
  }

  /** The loop of a sort, with the keys in `rest` still to come. */
  ghost predicate Sorting(keys: set<nat>, sorted: seq<nat>, rest: set<nat>) {
    && rest <= keys && Sorts(sorted, keys - rest) && |sorted| + |rest| == |keys|
    && forall i, k :: 0 <= i < |sorted| && k in rest ==> sorted[i] < k
  }

  predicate IsLeast(s: set<nat>, least: nat) {
    forall k :: k in s ==> least <= k
  }

  method SortKeys(keys: set<nat>) returns (sorted: seq<nat>)
    ensures Sorts(sorted, keys) && |sorted| == |keys|
  {
    hide *;
    sorted := [];
    var rest := keys;
    NothingSorted(keys);
    while rest != {}
      invariant Sorting(keys, sorted, rest)
      decreases rest
    {
      LeastExists(rest);
      var least :| least in rest && IsLeast(rest, least);
      NextKey(keys, sorted, rest, least);
      sorted, rest := sorted + [least], rest - {least};
    }
    AllSorted(keys, sorted, rest);
  }

  lemma NothingSorted(keys: set<nat>)
    ensures Sorting(keys, [], keys)
  {
  }

  lemma NextKey(keys: set<nat>, sorted: seq<nat>, rest: set<nat>, least: nat)
    requires Sorting(keys, sorted, rest) && least in rest && IsLeast(rest, least)
    ensures Sorting(keys, sorted + [least], rest - {least})
  {
    assert forall k :: k in sorted + [least] <==> k in sorted || k == least;
  }

  lemma AllSorted(keys: set<nat>, sorted: seq<nat>, rest: set<nat>)
    requires Sorting(keys, sorted, rest) && rest == {}
    ensures Sorts(sorted, keys) && |sorted| == |keys|
  {
    assert keys - {} == keys;
  }

  lemma {:induction false} LeastExists(s: set<nat>)
    requires s != {}
    ensures exists least :: least in s && IsLeast(s, least)
  {
    var least := Least(s);
  }

  lemma {:induction false} Least(s: set<nat>) returns (least: nat)
    requires s != {}
    ensures least in s && IsLeast(s, least)
  {
    least :| least in s;
    if s != {least} {
      var other := Least(s - {least});
      assert forall k :: k in s ==> k == least || k in s - {least};
      least := Min(least, other);
    }
  }
}
