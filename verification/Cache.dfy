/** The two first-in first-out caches: decrypted parts in the downloader and thumbnails in
    the server, each a map and an order list changed in place. */
module Cache {
  import opened Wrappers
  import opened Bytes
  import opened Collections
  import opened Text
  import opened Upload

  // ----- the reference: a bounded queue of admissions -----

  /** The last cap keys of a log. */
  function Tail<K>(log: seq<K>, cap: nat): seq<K> {
    if |log| <= cap then log else log[|log| - cap..]
  }

  /** The keys admitted by a history of puts: a key is admitted when it is not one of the
      last cap admissions. */
  function Admitted<K(==), V>(cap: nat, puts: seq<(K, V)>): seq<K> {
    if puts == [] then []
    else
      var log, key := Admitted(cap, puts[..|puts| - 1]), puts[|puts| - 1].0;
      if key in Tail(log, cap) then log else log + [key]
  }

  /** The value last put under a key. */
  function LastPut<K(==), V>(puts: seq<(K, V)>, key: K): Option<V> {
    if puts == [] then None
    else if puts[|puts| - 1].0 == key then Some(puts[|puts| - 1].1)
    else LastPut(puts[..|puts| - 1], key)
  }

  /** No key is queued twice, and each was put. */
  lemma {:induction false} QueueIsDistinct<K, V>(cap: nat, puts: seq<(K, V)>)
    requires cap > 0
    ensures NoDuplicates(Tail(Admitted(cap, puts), cap))
    ensures forall k :: k in Admitted(cap, puts) ==> LastPut(puts, k).Some?
  {
    if puts != [] {
      var before := puts[..|puts| - 1];
      QueueIsDistinct(cap, before);
      var log, key := Admitted(cap, before), puts[|puts| - 1].0;
      if key !in Tail(log, cap) {
        TailSnoc(log, key, cap);
      }
    }
  }

  lemma TailSnoc<K>(log: seq<K>, key: K, cap: nat)
    requires cap > 0
    ensures Tail(log + [key], cap) == (if |Tail(log, cap)| >= cap then Tail(log, cap)[1..] else Tail(log, cap)) + [key]
  {
  }

  /** A key just admitted stays while fewer than cap further keys are. */
  lemma StaysForCap<K, V>(cap: nat, puts: seq<(K, V)>, more: seq<(K, V)>)
    requires cap > 0 && Admitted(cap, puts) != []
    requires |Admitted(cap, puts + more)| < |Admitted(cap, puts)| + cap
    ensures var log := Admitted(cap, puts); log[|log| - 1] in Tail(Admitted(cap, puts + more), cap)
  {
    AdmittedGrows(cap, puts, more);
    var log, all := Admitted(cap, puts), Admitted(cap, puts + more);
    assert all[|log| - 1] == log[|log| - 1];
    if |all| > cap {
      assert Tail(all, cap)[|log| - 1 - (|all| - cap)] == all[|log| - 1];
    }
  }

  lemma {:induction false} AdmittedGrows<K, V>(cap: nat, puts: seq<(K, V)>, more: seq<(K, V)>)
    ensures Admitted(cap, puts) <= Admitted(cap, puts + more)
  {
    if more == [] {
      assert puts + more == puts;
    } else {
      AdmittedGrows(cap, puts, more[..|more| - 1]);
      assert (puts + more)[..|puts + more| - 1] == puts + more[..|more| - 1];
    }
  }

  /** What a put does to the queue. */
  function NextOrder<K(==)>(order: seq<K>, cap: nat, key: K): seq<K> {
    if key in order then order
    else if |order| >= cap > 0 then order[1..] + [key]
    else order + [key]
  }

  lemma PutOrder<K, V>(cap: nat, puts: seq<(K, V)>, key: K, value: V)
    requires cap > 0
    ensures var order := Tail(Admitted(cap, puts), cap);
            && Tail(Admitted(cap, puts + [(key, value)]), cap) == NextOrder(order, cap, key)
            && NoDuplicates(order) && |order| <= cap && NoDuplicates(NextOrder(order, cap, key))
    ensures forall k :: LastPut(puts + [(key, value)], k) == if k == key then Some(value) else LastPut(puts, k)
  {
    assert (puts + [(key, value)])[..|puts|] == puts;
    QueueIsDistinct(cap, puts);
    QueueIsDistinct(cap, puts + [(key, value)]);
    TailSnoc(Admitted(cap, puts), key, cap);
  }

  function Evicted<K, V>(items: map<K, V>, order: seq<K>, cap: nat, key: K): map<K, V> {
    if key !in order && |order| >= cap > 0 then items - {order[0]} else items
  }

  /** What a put does to the map. */
  function NextItems<K(==), V>(items: map<K, V>, order: seq<K>, cap: nat, key: K, value: V): map<K, V> {
    Evicted(items, order, cap, key)[key := value]
  }

  lemma PutItems<K, V>(items: map<K, V>, order: seq<K>, cap: nat, key: K, value: V)
    requires NoDuplicates(order) && |order| <= cap && cap > 0 && forall k :: k in items <==> k in order
    ensures var next := NextItems(items, order, cap, key, value); var queue := NextOrder(order, cap, key);
            && |queue| <= cap && (forall k :: k in next <==> k in queue) && key in next && next[key] == value
            && (forall k :: k in next && k != key ==> k in items && next[k] == items[k])
            && (forall k :: k in items && k !in next ==> k == order[0] && key !in items && |order| == cap)
  {
    forall k ensures k in NextItems(items, order, cap, key, value) <==> k in NextOrder(order, cap, key) {
      PutKeys(order, cap, key, k);
    }
  }

  /** The keys of the map follow the queue. */
  lemma PutKeys<K>(order: seq<K>, cap: nat, key: K, k: K)
    requires NoDuplicates(order) && 0 < cap
    ensures k in NextOrder(order, cap, key) <==>
              k == key || (k in order && !(key !in order && |order| >= cap && k == order[0]))
  {
    if key !in order && |order| >= cap {
      assert order == [order[0]] + order[1..];
    }
  }

  /** The map and the order list are what the reference queue makes of the puts. */
  ghost predicate Mirrors<K(!new), V>(cap: nat, order: seq<K>, items: map<K, V>, puts: seq<(K, V)>)
    requires cap > 0
  {
    && order == Tail(Admitted(cap, puts), cap)
    && (forall k :: k in items <==> k in order)
    && (forall k :: k in items ==> LastPut(puts, k) == Some(items[k]))
  }

  lemma PutHolds<K(!new), V>(cap: nat, order: seq<K>, items: map<K, V>, puts: seq<(K, V)>, key: K, value: V)
    requires cap > 0 && Mirrors(cap, order, items, puts)
    ensures forall k :: k in items <==> k in order
    ensures var next, queue := Evicted(items, order, cap, key)[key := value], NextOrder(order, cap, key);
            && Mirrors(cap, queue, next, puts + [(key, value)])
            && |queue| <= cap && NoDuplicates(queue) && next[key] == value
            && (forall k :: k in next && k != key ==> k in items && next[k] == items[k])
            && (forall k :: k in items && k !in next ==> k == order[0] && key !in items && |order| == cap)
  {
    hide *;
    MirrorsIs(cap, order, items, puts);
    PutOrder(cap, puts, key, value);
    PutItems(items, order, cap, key, value);
    NextItemsIs(items, order, cap, key, value);
    PutMirrors(cap, order, items, puts, key, value, NextOrder(order, cap, key),
               NextItems(items, order, cap, key, value));
  }

  lemma MirrorsIs<K(!new), V>(cap: nat, order: seq<K>, items: map<K, V>, puts: seq<(K, V)>)
    requires cap > 0 && Mirrors(cap, order, items, puts)
    ensures order == Tail(Admitted(cap, puts), cap) && forall k :: k in items <==> k in order
  {
  }

  lemma NextItemsIs<K, V>(items: map<K, V>, order: seq<K>, cap: nat, key: K, value: V)
    ensures NextItems(items, order, cap, key, value) == Evicted(items, order, cap, key)[key := value]
  {
  }

  lemma PutMirrors<K(!new), V>(cap: nat, order: seq<K>, items: map<K, V>, puts: seq<(K, V)>, key: K, value: V,
                               queue: seq<K>, next: map<K, V>)
    requires cap > 0 && Mirrors(cap, order, items, puts) && queue == Tail(Admitted(cap, puts + [(key, value)]), cap)
    requires (forall k :: k in next <==> k in queue) && key in next && next[key] == value
    requires forall k :: k in next && k != key ==> k in items && next[k] == items[k]
    requires forall k :: LastPut(puts + [(key, value)], k) == if k == key then Some(value) else LastPut(puts, k)
    ensures Mirrors(cap, queue, next, puts + [(key, value)])
  {
    hide Tail, Admitted, LastPut;
  }

  class Fifo<K(==,!new), V> {
    var items: map<K, V>
    var order: seq<K>
    const cap: nat
    ghost var puts: seq<(K, V)>

    /** The map holds the last value put under each key of the reference queue, and the order
        list is that queue. */
    ghost predicate Valid()
      reads this
    {
      cap > 0 && Mirrors(cap, order, items, puts)
    }

    constructor (cap: nat)
      requires cap > 0
      ensures Valid() && this.cap == cap && puts == [] && items == map[]
    {
      items, order, puts := map[], [], [];
      this.cap := cap;
    }

    /** Admit a key unless it is there, dropping the oldest when full; set its value. */
    method Put(key: K, value: V)
      requires Valid()
      modifies this
      ensures Valid() && puts == old(puts) + [(key, value)]
      ensures |order| <= cap && NoDuplicates(order) && key in items && items[key] == value
      ensures forall k :: k in items && k != key ==> k in old(items) && items[k] == old(items[k])
      ensures forall k :: k in old(items) && k !in items ==>
                k == old(order[0]) && key !in old(items) && |old(order)| == cap
    {
      PutHolds(cap, order, items, puts, key, value);
      hide Mirrors, NextOrder, NextItems, Evicted, NoDuplicates, Tail, Admitted, LastPut;
      Admit(key);
      items := items[key := value];
      puts := puts + [(key, value)];
    }

    /** Make room for a key that is not there yet. */
    method Admit(key: K)
      requires cap > 0 && forall k :: k in items <==> k in order
      modifies this`items, this`order
      ensures order == NextOrder(old(order), cap, key) && items == Evicted(old(items), old(order), cap, key)
    {
      if key !in items {
        if |order| >= cap {
          var oldest := order[0];
          order := order[1..];
          items := items - {oldest};
        }
        order := order + [key];
      }
    }

    /** A hit returns the last value put; a miss means that the key is not queued. */
    method Lookup(key: K) returns (r: Option<V>)
      requires Valid()
      ensures r == if key in Tail(Admitted(cap, puts), cap) then LastPut(puts, key) else None
      ensures r.Some? <==> key in items
    {
      r := if key in items then Some(items[key]) else None;
    }
  }

  // ----- thumbnails -----

  const THUMB_CACHE_CAP := 96
  const THUMB_CACHE_TTL := 3600

  datatype Thumb = Thumb(data: seq<byte>, at: int, modAt: int)

  method NewThumbs() returns (thumbs: Fifo<string, Thumb>)
    ensures fresh(thumbs) && thumbs.Valid() && thumbs.cap == THUMB_CACHE_CAP && thumbs.items == map[]
  {
    thumbs := new Fifo(THUMB_CACHE_CAP);
  }

  /** A thumbnail is served only while the file is unmodified and the entry is fresh. */
  method GetThumb(thumbs: Fifo<string, Thumb>, key: string, modAt: int, now: int) returns (data: Option<seq<byte>>)
    requires thumbs.Valid()
    ensures data.Some? ==>
              && key in Tail(Admitted(thumbs.cap, thumbs.puts), thumbs.cap)
              && exists at ::
                   now - at <= THUMB_CACHE_TTL && LastPut(thumbs.puts, key) == Some(Thumb(data.value, at, modAt))
    ensures data.None? ==>
              key !in thumbs.items || thumbs.items[key].modAt != modAt || now - thumbs.items[key].at > THUMB_CACHE_TTL
  {
    var e := thumbs.Lookup(key);
    if e.None? || e.value.modAt != modAt || now - e.value.at > THUMB_CACHE_TTL {
      return None;
    }
    data := Some(e.value.data);
    assert LastPut(thumbs.puts, key) == Some(Thumb(data.value, e.value.at, modAt));
  }

  // ----- parts -----

  const MAX_CACHE_SIZE := 32

  method NewChunkCache(ghost content: (string, nat) -> seq<byte>) returns (cache: Fifo<string, seq<byte>>)
    ensures fresh(cache) && Faithful(cache, content) && cache.cap == MAX_CACHE_SIZE
  {
    cache := new Fifo(MAX_CACHE_SIZE);
  }

  /** putCachedChunk leaves empty parts out. */
  method PutCachedChunk(cache: Fifo<string, seq<byte>>, key: string, data: seq<byte>)
    requires cache.Valid()
    modifies cache
    ensures cache.Valid() && cache.puts == old(cache.puts) + if data == [] then [] else [(key, data)]
    ensures data == [] ==> cache.items == old(cache.items) && cache.order == old(cache.order)
    ensures data != [] ==>
              && key in cache.items && cache.items[key] == data
              && forall k :: k in cache.items && k != key ==>
                   k in old(cache.items) && cache.items[k] == old(cache.items[k])
  {
    if |data| == 0 {
      return;
    }
    cache.Put(key, data);
  }

  /** A cache key tells the file and the index apart, even in a file id with colons. */
  lemma KeyInjective(f: string, i: nat, g: string, j: nat)
    requires Aad(f, i) == Aad(g, j)
    ensures f == g && i == j
  {
    var a, b := Aad(f, i), Aad(g, j);
    assert a[|f|] == ':' && b[|g|] == ':';
    if |f| < |g| {
      assert a[|g|] == Decimal(i)[|g| - |f| - 1];
      assert Decimal(i)[|g| - |f| - 1] in Decimal(i);
    } else if |g| < |f| {
      assert b[|f|] == Decimal(j)[|f| - |g| - 1];
      assert Decimal(j)[|f| - |g| - 1] in Decimal(j);
    } else {
      assert f == a[..|f|] && g == b[..|g|];
      assert Decimal(i) == a[|f| + 1..] && Decimal(j) == b[|g| + 1..];
      DecimalInjective(i, j);
    }
  }

  /** What fetchChunk finds without a cache: the row itself, then its replicas in turn. */
  function FirstFetched(tries: seq<Option<seq<byte>>>): Option<seq<byte>> {
    if tries == [] then None
    else if tries[0].Some? && tries[0].value != [] then tries[0]
    else FirstFetched(tries[1..])
  }

  /** Every cached part is the content its file and index stand for. */
  ghost predicate Faithful(cache: Fifo<string, seq<byte>>, content: (string, nat) -> seq<byte>)
    reads cache
  {
    && cache.Valid()
    && forall f, i :: Aad(f, i) in cache.items ==> cache.items[Aad(f, i)] == content(f, i) != []
  }

  /** fetchChunk: tries holds what fetchSingleChunk would return for the row and each of its
      completed replicas, which agree where they succeed. The cache never changes an answer
      that can be had without it, nor makes one up. */
  method FetchChunk(cache: Fifo<string, seq<byte>>, fileID: string, index: nat, tries: seq<Option<seq<byte>>>,
                    ghost content: (string, nat) -> seq<byte>)
    returns (r: Option<seq<byte>>)
    requires Faithful(cache, content)
    requires forall k :: 0 <= k < |tries| && tries[k].Some? && tries[k].value != [] ==>
               tries[k].value == content(fileID, index)
    modifies cache
    ensures Faithful(cache, content)
    ensures FirstFetched(tries).Some? ==> r == FirstFetched(tries)
    ensures r.Some? ==> r.value == content(fileID, index)
    ensures r.None? <==> FirstFetched(tries).None? && Aad(fileID, index) !in old(cache.items)
    ensures r.Some? ==> Aad(fileID, index) in cache.items
  {
    var key := Aad(fileID, index);
    var cached := cache.Lookup(key);
    assert FirstFetched(tries).Some? ==> FirstFetched(tries).value == content(fileID, index) by {
      FetchedIsContent(tries, content(fileID, index));
    }
    if cached.Some? {
      return cached;
    }
    for k := 0 to |tries|
      invariant cache.items == old(cache.items) && Faithful(cache, content)
      invariant FirstFetched(tries) == FirstFetched(tries[k..])
    {
      if tries[k].Some? && |tries[k].value| > 0 {
        PutCachedChunk(cache, key, tries[k].value);
        forall f, i | Aad(f, i) in cache.items ensures cache.items[Aad(f, i)] == content(f, i) != [] {
          if Aad(f, i) == key {
            KeyInjective(f, i, fileID, index);
          }
        }
        return tries[k];
      }
      assert tries[k..][1..] == tries[k + 1..];
    }
    r := None;
  }

  lemma {:induction false} FetchedIsContent(tries: seq<Option<seq<byte>>>, content: seq<byte>)
    requires forall k :: 0 <= k < |tries| && tries[k].Some? && tries[k].value != [] ==> tries[k].value == content
    ensures FirstFetched(tries).Some? ==> FirstFetched(tries).value == content != []
  {
    if tries != [] {
      FetchedIsContent(tries[1..], content);
    }
  }
}
