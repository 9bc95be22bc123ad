/** Result and option types shared by the modules. */
module Wrappers {
  datatype Option<+T> = None | Some(value: T)

  datatype Result<+T, +E> = Ok(value: T) | Err(error: E)
}

/** Lists without repetition and sets of the first numbers. */
module Collections {
  ghost predicate NoDuplicates<T>(list: seq<T>) {
    forall i, j :: 0 <= i < j < |list| ==> list[i] != list[j]
  }

  /** Exactly the numbers below some bound. */
  ghost predicate Contiguous(keys: set<nat>) {
    forall i :: i in keys <==> 0 <= i < |keys|
  }

  function UpTo(n: nat): (s: set<nat>)
    ensures |s| == n && forall i :: i in s <==> 0 <= i < n
  {
    if n == 0 then {} else UpTo(n - 1) + {n - 1}
  }

  lemma {:induction false} SubsetSize<T>(some: set<T>, all: set<T>)
    requires some <= all
    ensures |some| <= |all| && (|some| == |all| ==> some == all)
  {
    if some != {} {
      var x :| x in some;
      SubsetSize(some - {x}, all - {x});
    }
  }

  /** A set of n numbers that has all those below n has no others. */
  lemma HasAllBelow(keys: set<nat>)
    ensures Contiguous(keys) <==> forall i :: 0 <= i < |keys| ==> i in keys
  {
    if forall i :: 0 <= i < |keys| ==> i in keys {
      SubsetSize(UpTo(|keys|), keys);
    }
  }
}

/** Bytes, and the slices of them that parts, chunks and ranges are made of. */
module Bytes {
  type byte = b: int | 0 <= b < 0x100

  function Min(a: int, b: int): int {
    if a <= b then a else b
  }

  function Max(a: int, b: int): int {
    if a >= b then a else b
  }

  function Concat<T>(parts: seq<seq<T>>): seq<T> {
    if parts == [] then [] else parts[0] + Concat(parts[1..])
  }

  lemma DropOfConcat<T>(a: seq<T>, b: seq<T>, k: nat)
    requires k <= |a|
    ensures (a + b)[k..] == a[k..] + b
  {
  }

  lemma SliceOfSlice<T>(s: seq<T>, o: nat, n: nat, lo: nat, hi: nat)
    requires o + n <= |s| && lo <= hi <= n
    ensures s[o..o + n][lo..hi] == s[o + lo..o + hi]
  {
    var a, b := s[o..o + n][lo..hi], s[o + lo..o + hi];
    assert |a| == |b|;
    forall i | 0 <= i < |a|
      ensures a[i] == b[i]
    {
      assert a[i] == s[o..o + n][lo + i];
    }
  }

  lemma SlicePlusSlice<T>(s: seq<T>, a: nat, b: nat, c: nat)
    requires a <= b <= c <= |s|
    ensures s[a..b] + s[b..c] == s[a..c]
  {
  }

  lemma SliceSnoc<T>(s: seq<T>, a: nat, m: nat)
    requires a < m <= |s|
    ensures s[a..m] == s[a..m - 1] + [s[m - 1]]
  {
  }

  lemma PlusAssoc<T>(a: seq<T>, b: seq<T>, c: seq<T>)
    ensures a + (b + c) == (a + b) + c
  {
  }

  lemma {:induction false} ConcatAppend<T>(a: seq<seq<T>>, b: seq<seq<T>>)
    ensures Concat(a + b) == Concat(a) + Concat(b)
  {
    if a == [] {
      assert a + b == b;
    } else {
      ConcatAppend(a[1..], b);
      assert (a + b)[0] == a[0] && (a + b)[1..] == a[1..] + b;
      PlusAssoc(a[0], Concat(a[1..]), Concat(b));
    }
  }
}
