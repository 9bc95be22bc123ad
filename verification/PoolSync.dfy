/** SyncPool: the categories of a server as listed, the channels it lacks, and the pool. */
module PoolSync {
  import opened Wrappers
  import opened Bytes
  import opened Collections
  import opened Text
  import opened PoolNames
  import opened Pool
  import opened PoolOpenings

  // ----- the categories to start from -----

  /** sort.SliceStable by order, one category at a time. */
  function Insert(sorted: seq<Managed>, c: Managed): seq<Managed> {
    if sorted == [] || sorted[|sorted| - 1].order <= c.order then sorted + [c]
    else Insert(sorted[..|sorted| - 1], c) + [sorted[|sorted| - 1]]
  }

  function SortByOrder(cats: seq<Managed>): seq<Managed> {
    if cats == [] then [] else Insert(SortByOrder(cats[..|cats| - 1]), cats[|cats| - 1])
  }

  ghost predicate InOrder(cats: seq<Managed>) {
    forall i, j :: 0 <= i < j < |cats| ==> cats[i].order <= cats[j].order
  }

  lemma {:induction false} InsertKeepsAll(sorted: seq<Managed>, c: Managed)
    ensures multiset(Insert(sorted, c)) == multiset(sorted) + multiset{c}
    ensures |Insert(sorted, c)| == |sorted| + 1
    ensures sorted != [] && sorted[0].order <= c.order ==> Insert(sorted, c)[0] == sorted[0]
  {
    if sorted != [] && sorted[|sorted| - 1].order > c.order {
      var n := |sorted| - 1;
      assert sorted == sorted[..n] + [sorted[n]];
      InsertKeepsAll(sorted[..n], c);
    }
  }

  lemma {:induction false} InsertInOrder(sorted: seq<Managed>, c: Managed)
    requires InOrder(sorted)
    ensures InOrder(Insert(sorted, c))
  {
    if sorted != [] && sorted[|sorted| - 1].order > c.order {
      var n := |sorted| - 1;
      InsertInOrder(sorted[..n], c);
      InsertKeepsAll(sorted[..n], c);
      var front := Insert(sorted[..n], c);
      assert Insert(sorted, c) == front + [sorted[n]];
      hide Insert;
      forall i | 0 <= i < |front| ensures front[i].order <= sorted[n].order {
        assert front[i] in multiset(front);
        assert front[i] == c || front[i] in sorted[..n];
      }
      OneMoreInOrder(front, sorted[n]);
    } else {
      LastInOrder(sorted, c);
    }
  }

  lemma LastInOrder(sorted: seq<Managed>, c: Managed)
    requires InOrder(sorted) && (sorted == [] || sorted[|sorted| - 1].order <= c.order)
    ensures InOrder(sorted + [c])
  {
  }

  lemma OneMoreInOrder(front: seq<Managed>, c: Managed)
    requires InOrder(front) && forall i :: 0 <= i < |front| ==> front[i].order <= c.order
    ensures InOrder(front + [c])
  {
  }

  lemma {:induction false} SortKeepsAll(cats: seq<Managed>)
    ensures multiset(SortByOrder(cats)) == multiset(cats) && |SortByOrder(cats)| == |cats|
  {
    if cats != [] {
      var n := |cats| - 1;
      SortKeepsAll(cats[..n]);
      InsertKeepsAll(SortByOrder(cats[..n]), cats[n]);
      MultisetSnoc(cats, n);
      hide Insert;
    }
  }

  lemma MultisetSnoc(cats: seq<Managed>, n: nat)
    requires n + 1 == |cats|
    ensures multiset(cats) == multiset(cats[..n]) + multiset{cats[n]}
  {
    assert cats == cats[..n] + [cats[n]];
  }

  /** The base category, of order 1, comes first; the others follow by number. */
  lemma {:induction false} SortInOrder(cats: seq<Managed>)
    ensures InOrder(SortByOrder(cats))
    ensures cats != [] && (forall i :: 0 <= i < |cats| ==> cats[i].order >= cats[0].order) ==>
              SortByOrder(cats)[..1] == cats[..1]
  {
    if cats != [] {
      var n := |cats| - 1;
      SortInOrder(cats[..n]);
      SortKeepsAll(cats[..n]);
      InsertKeepsAll(SortByOrder(cats[..n]), cats[n]);
      InsertInOrder(SortByOrder(cats[..n]), cats[n]);
      if n > 0 && forall i :: 0 <= i < |cats| ==> cats[i].order >= cats[0].order {
        assert SortByOrder(cats[..n])[0] == SortByOrder(cats[..n])[..1][0] == cats[..n][..1][0];
      }
    }
  }

  datatype Base = Base(guild: Guild, id: nat, name: string)

  function NameOf(channels: seq<Channel>, id: nat): string {
    if channels == [] then ""
    else if channels[0].id == id then channels[0].name
    else NameOf(channels[1..], id)
  }

  function FindPrefix(channels: seq<Channel>, prefix: string): Option<Channel> {
    if channels == [] then None
    else if channels[0].kind == Category && EqualFold(TrimSpace(channels[0].name), prefix) then Some(channels[0])
    else FindPrefix(channels[1..], prefix)
  }

  /** The pinned category, else one named by the prefix, else a new one. */
  function FindBase(g: Guild, pinned: Option<nat>, prefix: string): Option<Base> {
    if pinned.Some? then
      var name := NameOf(g.channels, pinned.value);
      if name == "" then None else Some(Base(g, pinned.value, name))
    else
      match FindPrefix(g.channels, prefix)
      case Some(ch) => Some(Base(g, ch.id, ch.name))
      case None =>
        var (guild, id) := FindOrCreateCategory(g, prefix);
        Some(Base(guild, id, prefix))
  }

  /** The overflow categories of a listing, in its order. */
  function Overflows(channels: seq<Channel>, base: nat, baseName: string): seq<Managed> {
    if channels == [] then []
    else
      var before, ch := Overflows(channels[..|channels| - 1], base, baseName), channels[|channels| - 1];
      if ch.kind == Category && ch.id != base && OverflowIndex(baseName, ch.name) > 0
      then before + [Managed(ch.id, ch.name, OverflowIndex(baseName, ch.name), 0)] else before
  }

  function Recount(cats: seq<Managed>, channels: seq<Channel>): (r: seq<Managed>)
    ensures |r| == |cats| && forall i :: 0 <= i < |cats| ==> r[i] == cats[i].(count := CountIn(channels, cats[i].id))
  {
    if cats == [] then []
    else Recount(cats[..|cats| - 1], channels) + [cats[|cats| - 1].(count := CountIn(channels, cats[|cats| - 1].id))]
  }

  /** buildManagedCategories, for a listing and the base found in it. */
  function ManagedCategories(channels: seq<Channel>, base: Base): seq<Managed> {
    Recount(SortByOrder([Managed(base.id, base.name, 1, 0)] + Overflows(channels, base.id, base.name)), channels)
  }

  function MaxOrder(cats: seq<Managed>): int {
    if cats == [] then 1 else Max(MaxOrder(cats[..|cats| - 1]), cats[|cats| - 1].order)
  }

  function Sum(cats: seq<Managed>): nat {
    if cats == [] then 0 else Sum(cats[..|cats| - 1]) + cats[|cats| - 1].count
  }

  function Start(channels: seq<Channel>, base: Base): Filling {
    var cats := ManagedCategories(channels, base);
    Filling(base.guild, cats, MaxOrder(cats), [])
  }

  lemma {:induction false} MaxOrderIs(cats: seq<Managed>)
    ensures MaxOrder(cats) >= 1 && forall i :: 0 <= i < |cats| ==> cats[i].order <= MaxOrder(cats)
  {
    if cats != [] {
      MaxOrderIs(cats[..|cats| - 1]);
      assert forall i :: 0 <= i < |cats| - 1 ==> cats[i] == cats[..|cats| - 1][i];
    }
  }

  ghost predicate HasId(channels: seq<Channel>, id: nat) {
    exists i :: 0 <= i < |channels| && channels[i].id == id
  }

  lemma {:induction false} OverflowsAre(channels: seq<Channel>, base: nat, baseName: string)
    ensures forall c :: c in Overflows(channels, base, baseName) ==>
              c.order >= 1 && c.id != base && HasId(channels, c.id)
  {
    if channels != [] {
      var n := |channels| - 1;
      OverflowsAre(channels[..n], base, baseName);
      forall id | HasId(channels[..n], id) ensures HasId(channels, id) {
        var i :| 0 <= i < n && channels[..n][i].id == id;
        assert channels[i].id == id;
      }
      assert HasId(channels, channels[n].id);
    }
  }

  lemma {:induction false} OverflowsHave(channels: seq<Channel>, base: nat, baseName: string, i: nat)
    requires i < |channels| && channels[i].kind == Category && channels[i].id != base &&
             OverflowIndex(baseName, channels[i].name) > 0
    ensures var ch := channels[i];
            Managed(ch.id, ch.name, OverflowIndex(baseName, ch.name), 0) in Overflows(channels, base, baseName)
  {
    var n := |channels| - 1;
    if i < n {
      OverflowsHave(channels[..n], base, baseName, i);
    }
  }

  ghost predicate DistinctIds(cats: seq<Managed>) {
    forall i, j :: 0 <= i < j < |cats| ==> cats[i].id != cats[j].id
  }

  lemma {:induction false} OverflowsDistinct(channels: seq<Channel>, base: nat, baseName: string)
    requires forall i, j :: 0 <= i < j < |channels| ==> channels[i].id != channels[j].id
    ensures DistinctIds(Overflows(channels, base, baseName))
  {
    if channels != [] {
      var n := |channels| - 1;
      OverflowsDistinct(channels[..n], base, baseName);
      OverflowsAre(channels[..n], base, baseName);
      var before := Overflows(channels[..n], base, baseName);
      forall c | c in before ensures c.id != channels[n].id {
        assert HasId(channels[..n], c.id);
        var i :| 0 <= i < n && channels[..n][i].id == c.id;
        assert channels[i].id == c.id;
      }
    }
  }

  // ----- where a sync starts -----

  /** The base category's own name is no overflow name of it. */
  lemma OwnIndex(baseName: string)
    ensures OverflowIndex(baseName, baseName) == 1
  {
  }

  lemma CutIndex(prefix: string, name: string)
    requires TrimSpace(prefix) == prefix && EqualFold(name, CutName(prefix))
    ensures OverflowIndex(prefix, name) <= 1
  {
    if |prefix| <= MAX_NAME {
      SameNameSameIndex(prefix, name, prefix);
      OwnIndex(prefix);
    } else {
      TrimShorter(name);
    }
  }

  lemma TrimShorter(s: string)
    ensures |TrimSpace(s)| <= |s|
  {
    TrimLeftShorter(s);
    TrimRightIs(TrimLeft(s));
  }

  ghost predicate GoodBase(channels: seq<Channel>, base: Base) {
    && Fits(base.guild) && base.id < base.guild.next
    && (base.guild.channels == channels
        || exists name :: base.guild.channels == channels + [Channel(base.id, Category, name, None)])
    && (forall i :: 0 <= i < |base.guild.channels| && base.guild.channels[i].id == base.id ==>
          OverflowIndex(base.name, base.guild.channels[i].name) <= 1)
  }

  lemma {:induction false} NameOfIs(channels: seq<Channel>, id: nat)
    requires forall i, j :: 0 <= i < j < |channels| ==> channels[i].id != channels[j].id
    ensures NameOf(channels, id) != "" ==> HasId(channels, id)
    ensures forall i :: 0 <= i < |channels| && channels[i].id == id ==> channels[i].name == NameOf(channels, id)
  {
    if channels != [] {
      NameOfIs(channels[1..], id);
      assert forall i :: 0 < i < |channels| ==> channels[i] == channels[1..][i - 1];
      if HasId(channels[1..], id) {
        var i :| 0 <= i < |channels| - 1 && channels[1..][i].id == id;
        assert channels[i + 1].id == id;
      }
    }
  }

  lemma {:induction false} FindPrefixIs(channels: seq<Channel>, prefix: string)
    ensures FindPrefix(channels, prefix).Some? ==> FindPrefix(channels, prefix).value in channels
  {
    if channels != [] {
      FindPrefixIs(channels[1..], prefix);
    }
  }

  lemma {:induction false} FindCategoryIs(channels: seq<Channel>, name: string)
    ensures FindCategory(channels, name).Some? ==>
              exists i :: 0 <= i < |channels|
                && channels[i].id == FindCategory(channels, name).value && EqualFold(channels[i].name, name)
  {
    if channels != [] && !(channels[0].kind == Category && EqualFold(channels[0].name, name)) {
      FindCategoryIs(channels[1..], name);
      if FindCategory(channels[1..], name).Some? {
        var i :| 0 <= i < |channels| - 1 && channels[1..][i].id == FindCategory(channels[1..], name).value &&
          EqualFold(channels[1..][i].name, name);
        assert channels[i + 1].id == FindCategory(channels, name).value;
      }
    }
  }

  lemma ListedBaseIsGood(g: Guild, base: Base)
    requires Fits(g) && base.guild == g && HasId(g.channels, base.id)
    requires forall i :: 0 <= i < |g.channels| && g.channels[i].id == base.id ==> g.channels[i].name == base.name
    ensures GoodBase(g.channels, base)
  {
    hide OverflowIndex;
    OwnIndex(base.name);
  }

  lemma NewBaseIsGood(g: Guild, prefix: string)
    requires Fits(g) && TrimSpace(prefix) == prefix
    ensures var (guild, id) := FindOrCreateCategory(g, prefix); GoodBase(g.channels, Base(guild, id, prefix))
  {
    var (guild, id) := FindOrCreateCategory(g, prefix);
    FindCategoryIs(g.channels, CutName(prefix));
    CreateFits(g, Category, CutName(prefix), None);
    hide OverflowIndex, TrimSpace, CutName, FindCategory;
    forall i | 0 <= i < |guild.channels| && guild.channels[i].id == id
      ensures OverflowIndex(prefix, guild.channels[i].name) <= 1
    {
      CutIndex(prefix, guild.channels[i].name);
    }
  }

  lemma BaseIsGood(g: Guild, pinned: Option<nat>, prefix: string)
    requires Fits(g) && TrimSpace(prefix) == prefix && FindBase(g, pinned, prefix).Some?
    ensures GoodBase(g.channels, FindBase(g, pinned, prefix).value)
  {
    var base := FindBase(g, pinned, prefix).value;
    hide GoodBase, TrimSpace, NameOf, FindPrefix, FindOrCreateCategory;
    NameOfIs(g.channels, base.id);
    if pinned.None? && FindPrefix(g.channels, prefix).None? {
      NewBaseIsGood(g, prefix);
    } else {
      FindPrefixIs(g.channels, prefix);
      ListedBaseIsGood(g, base);
    }
  }

  lemma {:induction false} InsertDistinct(sorted: seq<Managed>, c: Managed)
    requires DistinctIds(sorted) && forall x :: x in sorted ==> x.id != c.id
    ensures DistinctIds(Insert(sorted, c)) && forall x :: x in Insert(sorted, c) <==> x in sorted || x == c
  {
    if sorted == [] || sorted[|sorted| - 1].order <= c.order {
    } else {
      var n := |sorted| - 1;
      assert sorted == sorted[..n] + [sorted[n]];
      InsertDistinct(sorted[..n], c);
      assert forall x :: x in sorted[..n] ==> x.id != sorted[n].id;
    }
  }

  lemma {:induction false} SortDistinct(cats: seq<Managed>)
    requires DistinctIds(cats)
    ensures DistinctIds(SortByOrder(cats)) && forall x :: x in SortByOrder(cats) <==> x in cats
  {
    if cats != [] {
      var n := |cats| - 1;
      assert cats == cats[..n] + [cats[n]];
      SortDistinct(cats[..n]);
      assert forall x :: x in cats[..n] ==> x.id != cats[n].id;
      InsertDistinct(SortByOrder(cats[..n]), cats[n]);
    }
  }

  function Raw(channels: seq<Channel>, base: Base): seq<Managed> {
    [Managed(base.id, base.name, 1, 0)] + Overflows(channels, base.id, base.name)
  }

  lemma RawIs(channels: seq<Channel>, base: Base)
    requires GoodBase(channels, base)
    ensures DistinctIds(Raw(channels, base))
    ensures forall c :: c in Raw(channels, base) ==> c.order >= 1 && c.id < base.guild.next
  {
    assert channels <= base.guild.channels;
    forall i, j | 0 <= i < j < |channels| ensures channels[i].id != channels[j].id {
      assert base.guild.channels[i] == channels[i] && base.guild.channels[j] == channels[j];
    }
    OverflowsAre(channels, base.id, base.name);
    OverflowsDistinct(channels, base.id, base.name);
    forall c | c in Overflows(channels, base.id, base.name) ensures c.id < base.guild.next {
      var i :| 0 <= i < |channels| && channels[i].id == c.id;
      assert base.guild.channels[i] == channels[i];
    }
  }

  ghost predicate CatsOk(cats: seq<Managed>, raw: seq<Managed>, channels: seq<Channel>, next: nat) {
    && raw != [] && cats != [] && cats[0].id == raw[0].id && cats[0].name == raw[0].name
    && DistinctIds(cats)
    && (forall i :: 0 <= i < |cats| ==> cats[i].id < next && cats[i].count == CountIn(channels, cats[i].id))
    && (forall c :: c in raw ==> c.order <= MaxOrder(cats))
  }

  lemma RecountOk(sorted: seq<Managed>, raw: seq<Managed>, channels: seq<Channel>, next: nat)
    requires raw != [] && sorted != [] && sorted[0] == raw[0] && DistinctIds(sorted)
    requires forall x :: x in sorted <==> x in raw
    requires forall c :: c in raw ==> c.id < next
    ensures CatsOk(Recount(sorted, channels), raw, channels, next)
  {
    var cats := Recount(sorted, channels);
    MaxOrderIs(cats);
    forall i | 0 <= i < |cats| ensures cats[i].id < next {
      assert sorted[i] in sorted;
    }
    forall c | c in raw ensures c.order <= MaxOrder(cats) {
      assert c in sorted;
      var i :| 0 <= i < |sorted| && sorted[i] == c;
      assert cats[i].order == c.order;
    }
  }

  lemma SortedRaw(raw: seq<Managed>)
    requires raw != [] && DistinctIds(raw) && forall c :: c in raw ==> c.order >= raw[0].order
    ensures var sorted := SortByOrder(raw);
            sorted != [] && sorted[0] == raw[0] && DistinctIds(sorted) && forall x :: x in sorted <==> x in raw
  {
    SortDistinct(raw);
    SortKeepsAll(raw);
    SortInOrder(raw);
    assert forall i :: 0 <= i < |raw| ==> raw[i] in raw;
    assert SortByOrder(raw)[0] == SortByOrder(raw)[..1][0] && raw[..1][0] == raw[0];
  }

  lemma StartCats(channels: seq<Channel>, base: Base)
    requires GoodBase(channels, base)
    ensures CatsOk(ManagedCategories(channels, base), Raw(channels, base), channels, base.guild.next)
    ensures Raw(channels, base)[0] == Managed(base.id, base.name, 1, 0)
  {
    var raw := Raw(channels, base);
    RawIs(channels, base);
    hide GoodBase, DistinctIds, CatsOk, Overflows, SortByOrder;
    SortedRaw(raw);
    RecountOk(SortByOrder(raw), raw, channels, base.guild.next);
  }

  lemma StartTracks(channels: seq<Channel>, base: Base)
    requires GoodBase(channels, base)
    ensures Tracks(Start(channels, base))
  {
    var f := Start(channels, base);
    StartCats(channels, base);
    MaxOrderIs(f.cats);
    StartKnown(channels, base, f.order);
    hide ManagedCategories, MaxOrder, Raw, OverflowIndex, Known;
    StartCounts(channels, base, f.cats);
  }

  lemma StartKnown(channels: seq<Channel>, base: Base, order: int)
    requires GoodBase(channels, base) && order >= 1 && forall c :: c in Raw(channels, base) ==> c.order <= order
    ensures Known(base.guild, base.name, order)
  {
    hide OverflowIndex, Fits;
    forall i | 0 <= i < |base.guild.channels| && base.guild.channels[i].kind == Category
      ensures OverflowIndex(base.name, base.guild.channels[i].name) <= order
    {
      var ch := base.guild.channels[i];
      if ch.id != base.id && OverflowIndex(base.name, ch.name) > 0 {
        assert i < |channels| && channels[i] == ch;
        OverflowsHave(channels, base.id, base.name, i);
        assert Managed(ch.id, ch.name, OverflowIndex(base.name, ch.name), 0) in Raw(channels, base);
      }
    }
  }

  lemma StartCounts(channels: seq<Channel>, base: Base, cats: seq<Managed>)
    requires GoodBase(channels, base) && DistinctIds(cats)
    requires forall i :: 0 <= i < |cats| ==>
               cats[i].id < base.guild.next && cats[i].count == CountIn(channels, cats[i].id)
    ensures Counts(base.guild, cats)
  {
    forall i | 0 <= i < |cats| ensures cats[i].count == CountIn(base.guild.channels, cats[i].id) {
      if base.guild.channels != channels {
        var name :| base.guild.channels == channels + [Channel(base.id, Category, name, None)];
        CountSnoc(channels, Channel(base.id, Category, name, None), cats[i].id);
      }
    }
  }

  // ----- SyncPool -----

  datatype PoolError = NoBase | NotCreated(call: nat)

  /** The loops that gather the overflow categories and count channels. The listing names
      each channel once. */
  method BuildManagedCategories(channels: seq<Channel>, base: Base) returns (cats: seq<Managed>)
    requires forall i, j :: 0 <= i < j < |channels| ==> channels[i].id != channels[j].id
    ensures cats == ManagedCategories(channels, base)
  {
    cats := [Managed(base.id, base.name, 1, 0)];
    var seen := {base.id};
    for k := 0 to |channels|
      invariant cats == [Managed(base.id, base.name, 1, 0)] + Overflows(channels[..k], base.id, base.name)
      invariant forall id :: id in seen ==> id == base.id || HasId(channels[..k], id)
      invariant base.id in seen
    {
      var ch := channels[k];
      assert channels[..k + 1][..k] == channels[..k];
      NotBefore(channels, k);
      HasIdGrows(channels, k);
      if ch.kind == Category && ch.id !in seen {
        var idx := OverflowIndex(base.name, ch.name);
        if idx > 0 {
          seen := seen + {ch.id};
          cats := cats + [Managed(ch.id, ch.name, idx, 0)];
        }
      }
    }
    assert channels[..|channels|] == channels;
    cats := Recount(SortByOrder(cats), channels);
  }

  lemma NotBefore(channels: seq<Channel>, k: nat)
    requires k < |channels| && forall i, j :: 0 <= i < j < |channels| ==> channels[i].id != channels[j].id
    ensures !HasId(channels[..k], channels[k].id)
  {
  }

  lemma HasIdGrows(channels: seq<Channel>, k: nat)
    requires k < |channels|
    ensures forall id :: HasId(channels[..k], id) ==> HasId(channels[..k + 1], id)
    ensures HasId(channels[..k + 1], channels[k].id)
  {
    forall id | HasId(channels[..k], id) ensures HasId(channels[..k + 1], id) {
      var i :| 0 <= i < k && channels[..k][i].id == id;
      assert channels[..k + 1][i].id == id;
    }
    assert channels[..k + 1][k].id == channels[k].id;
  }

  function Clamp(desired: int): nat {
    if desired < 1 then DEFAULT_TARGET else if desired > MAX_TARGET then MAX_TARGET else desired
  }

  /** How many channels a sync creates when no call fails. */
  function Missing(desired: int, have: nat): nat {
    Max(0, Clamp(desired) - have)
  }

  /** The channels of the pool: the listed ones that hang on a managed category and whose
      webhook could be had, then the new ones. */
  function Listed(channels: seq<Channel>, cats: seq<Managed>, hooks: set<nat>): seq<nat> {
    if channels == [] then []
    else
      var before, ch := Listed(channels[..|channels| - 1], cats, hooks), channels[|channels| - 1];
      if InPool(ch, cats) && ch.id in hooks then before + [ch.id] else before
  }

  predicate InPool(ch: Channel, cats: seq<Managed>) {
    ch.kind == TextChannel && ch.parent.Some? && exists i :: 0 <= i < |cats| && cats[i].id == ch.parent.value
  }

  /** What is there when the call after k channels fails, or the one after opening for it. */
  ghost predicate StoppedAt(start: Filling, f: Filling, k: nat)
    requires |start.cats| > 0
  {
    f == Fill(start, k) || (Free(Fill(start, k).cats) == 0 && f == Open(Fill(start, k)))
  }

  /** Where first fit puts the next channel. */
  method FindTarget(cats: seq<Managed>) returns (i: nat)
    ensures i == FirstFree(cats)
  {
    i := 0;
    while i < |cats| && cats[i].count >= MAX_PER_CATEGORY
      invariant i <= |cats| && forall j :: 0 <= j < i ==> cats[j].count >= MAX_PER_CATEGORY
    {
      i := i + 1;
    }
    var k := FirstFree(cats);
    assert !(k < i) && !(i < k);
  }

  ghost predicate Placed(f: Filling, r: Filling)
    requires |f.cats| > 0
  {
    r == PlaceOne(f)
  }

  ghost predicate Unplaced(f: Filling, r: Filling)
    requires |f.cats| > 0
  {
    r == f || (Free(f.cats) == 0 && r == Open(f))
  }

  /** One turn of the loop; failing says which calls to the server fail. */
  method PlaceNext(f: Filling, failing: set<nat>, calls: nat) returns (r: Filling, done: bool, after: nat)
    requires |f.cats| > 0
    ensures done ==> Placed(f, r)
    ensures !done ==> Unplaced(f, r)
    ensures after > calls
  {
    r, after := f, calls + 1;
    var i := FindTarget(f.cats);
    NoneFree(f.cats);
    if i == |f.cats| {
      if after in failing {
        return r, false, after;
      }
      r, after := Open(f), after + 1;
    }
    if after in failing {
      return r, false, after;
    }
    r, done := Shelve(r, i), true;
  }

  ghost predicate Reached(start: Filling, f: Filling, n: nat)
    requires |start.cats| > 0
  {
    f == Fill(start, n)
  }

  lemma ReachedNext(start: Filling, f: Filling, n: nat, r: Filling)
    requires |start.cats| > 0 && Reached(start, f, n) && |f.cats| > 0
    ensures Placed(f, r) ==> Reached(start, r, n + 1)
    ensures Unplaced(f, r) ==> StoppedAt(start, r, n)
  {
  }

  lemma ReachedNone(start: Filling)
    requires |start.cats| > 0
    ensures Reached(start, start, 0)
  {
  }

  lemma MissingIs(desired: int, have: nat)
    ensures Missing(desired, have) == if Clamp(desired) > have then Clamp(desired) - have else 0
  {
  }

  lemma ReachedHasCats(start: Filling, f: Filling, n: nat)
    requires |start.cats| > 0 && Reached(start, f, n)
    ensures |f.cats| > 0
  {
  }

  /** The loop: either all missing channels are created, each in the first category with a
      free place, or the first failing call ends the sync with what was done before it. */
  method FillUp(start: Filling, desired: int, failing: set<nat>)
    returns (f: Filling, r: Result<(), PoolError>, ghost n: nat)
    requires |start.cats| > 0
    ensures r.Ok? ==> Reached(start, f, Missing(desired, Sum(start.cats)))
    ensures r.Err? ==>
              r.error.NotCreated? && r.error.call > 0 && n < Missing(desired, Sum(start.cats)) && StoppedAt(start, f, n)
  {
    hide *;
    f, n := start, 0;
    var storageCount, calls, target := Sum(start.cats), 0, Clamp(desired);
    ghost var have, want := storageCount, Missing(desired, storageCount);
    MissingIs(desired, have);
    ReachedNone(start);
    while storageCount < target
      invariant Reached(start, f, n) && storageCount == have + n && n <= want
    {
      ReachedHasCats(start, f, n);
      var next, done;
      next, done, calls := PlaceNext(f, failing, calls);
      ReachedNext(start, f, n, next);
      if !done {
        return next, Err(NotCreated(calls)), n;
      }
      f := next;
      storageCount := storageCount + 1;
      n := n + 1;
    }
    r := Ok(());
  }

  /** What a sync that a call failed leaves behind: the server as it was, or with what was
      done before that call. */
  ghost predicate LeftAt(start: Filling, desired: int, after: Guild)
    requires |start.cats| > 0
  {
    exists f, n: nat :: StoppedAt(start, f, n) && n < Missing(desired, Sum(start.cats)) && after == f.guild
  }

  method SyncFrom(g: Guild, base: Base, desired: int, failing: set<nat>) returns (f: Filling, r: Result<(), PoolError>)
    requires Fits(g)
    ensures |Start(g.channels, base).cats| > 0
    ensures r.Ok? ==> f == Fill(Start(g.channels, base), Missing(desired, Sum(Start(g.channels, base).cats)))
    ensures r.Err? ==> r.error.NotCreated? && r.error.call > 0 && LeftAt(Start(g.channels, base), desired, f.guild)
  {
    var cats := BuildManagedCategories(g.channels, base);
    var start := Filling(base.guild, cats, MaxOrder(cats), []);
    StartIs(g.channels, base);
    assert start == Start(g.channels, base);
    hide *;
    ghost var n;
    f, r, n := FillUp(start, desired, failing);
    LeaveAt(start, f, n, desired, r.Err?);
  }

  lemma StartIs(channels: seq<Channel>, base: Base)
    ensures |Start(channels, base).cats| > 0
  {
    SortKeepsAll([Managed(base.id, base.name, 1, 0)] + Overflows(channels, base.id, base.name));
  }

  lemma LeaveAt(start: Filling, f: Filling, n: nat, desired: int, failed: bool)
    requires |start.cats| > 0
    requires failed ==> n < Missing(desired, Sum(start.cats)) && StoppedAt(start, f, n)
    requires !failed ==> Reached(start, f, Missing(desired, Sum(start.cats)))
    ensures failed ==> LeftAt(start, desired, f.guild)
    ensures !failed ==> f == Fill(start, Missing(desired, Sum(start.cats)))
  {
    hide StoppedAt, Fill, Missing;
  }

  method SyncPool(g: Guild, pinned: Option<nat>, prefix: string, desired: int, failing: set<nat>, hooks: set<nat>)
    returns (after: Guild, r: Result<seq<nat>, PoolError>)
    requires Fits(g)
    ensures FindBase(g, pinned, prefix).None? <==> r == Err(NoBase)
    ensures r == Err(NoBase) || r == Err(NotCreated(0)) ==> after == g
    ensures r.Err? && r != Err(NoBase) && r != Err(NotCreated(0)) ==>
              var start := Start(g.channels, FindBase(g, pinned, prefix).value);
              |start.cats| > 0 && LeftAt(start, desired, after)
    ensures r.Ok? ==>
              && FindBase(g, pinned, prefix).Some?
              && var start := Start(g.channels, FindBase(g, pinned, prefix).value);
                 && |start.cats| > 0
                 && var f := Fill(start, Missing(desired, Sum(start.cats)));
                    after == f.guild && r.value == Listed(g.channels, f.cats, hooks) + f.made
  {
    var base := FindBase(g, pinned, prefix);
    if base.None? {
      return g, Err(NoBase);
    }
    if base.value.guild != g && 0 in failing {
      return g, Err(NotCreated(0));
    }
    var f, done := SyncFrom(g, base.value, desired, failing);
    after := f.guild;
    if done.Err? {
      return after, Err(done.error);
    }
    r := Ok(Listed(g.channels, f.cats, hooks) + f.made);
  }

  // ----- the pool that is returned -----

  ghost predicate Ascending(ids: seq<nat>, low: nat, high: nat) {
    && (forall i, j :: 0 <= i < j < |ids| ==> ids[i] < ids[j])
    && (forall i :: 0 <= i < |ids| ==> low <= ids[i] < high)
  }

  ghost predicate MakesNew(f: Filling, r: Filling) {
    Ascending(r.made, f.guild.next, r.guild.next) && f.guild.next <= r.guild.next
  }

  lemma PlaceMakesNew(f: Filling, r: Filling)
    requires |r.cats| > 0 && MakesNew(f, r)
    ensures MakesNew(f, PlaceOne(r))
  {
  }

  /** New channels get new ids. */
  lemma {:induction false} MadeAreNew(f: Filling, n: nat)
    requires |f.cats| > 0 && f.made == []
    ensures MakesNew(f, Fill(f, n))
  {
    hide PlaceOne;
    if n > 0 {
      hide MakesNew;
      MadeAreNew(f, n - 1);
      PlaceMakesNew(f, Fill(f, n - 1));
    }
  }

  lemma {:induction false} ListedAre(channels: seq<Channel>, cats: seq<Managed>, hooks: set<nat>)
    requires forall i, j :: 0 <= i < j < |channels| ==> channels[i].id != channels[j].id
    ensures forall id :: id in Listed(channels, cats, hooks) <==>
              exists i :: 0 <= i < |channels| && channels[i].id == id && InPool(channels[i], cats) && id in hooks
    ensures forall i, j :: 0 <= i < j < |Listed(channels, cats, hooks)| ==>
              Listed(channels, cats, hooks)[i] != Listed(channels, cats, hooks)[j]
  {
    if channels != [] {
      var n := |channels| - 1;
      var front, before := channels[..n], Listed(channels[..n], cats, hooks);
      ListedAre(front, cats, hooks);
      assert forall i :: 0 <= i < n ==> front[i] == channels[i];
      forall id ensures id in Listed(channels, cats, hooks) <==>
                          exists i ::
                            0 <= i < |channels| && channels[i].id == id && InPool(channels[i], cats) && id in hooks {
        if id in before {
          var i :| 0 <= i < |front| && front[i].id == id && InPool(front[i], cats) && id in hooks;
          assert channels[i].id == id && InPool(channels[i], cats);
        }
        if id in Listed(channels, cats, hooks) && id !in before {
          assert channels[n].id == id;
        }
      }
    }
  }

  /** The pool names no channel twice: the listed storage channels whose webhook could be had,
      and the new channels, whose ids no listed one has. */
  lemma PoolIsDistinct(g: Guild, base: Base, n: nat, hooks: set<nat>)
    requires Fits(g) && GoodBase(g.channels, base) && base.guild.next >= g.next
    ensures var f := Fill(Start(g.channels, base), n); var pool := Listed(g.channels, f.cats, hooks) + f.made;
            && |f.made| == n
            && NoDuplicates(pool)
            && (forall id :: id in pool <==>
                  id in f.made || exists i ::
                    0 <= i < |g.channels| && g.channels[i].id == id && InPool(g.channels[i], f.cats) && id in hooks)
  {
    var start := Start(g.channels, base);
    StartTracks(g.channels, base);
    var f := Fill(start, n);
    MadeAreNew(start, n);
    OpensAsFewAsNeeded(start, n);
    ListedAre(g.channels, f.cats, hooks);
    hide Start, Fill, InPool, Listed, Tracks, Free, Needed;
    var listed := Listed(g.channels, f.cats, hooks);
    forall i | 0 <= i < |listed| ensures listed[i] < g.next {
      assert listed[i] in listed;
    }
  }

  function SumIn(channels: seq<Channel>, cats: seq<Managed>): nat {
    if cats == [] then 0 else SumIn(channels, cats[..|cats| - 1]) + CountIn(channels, cats[|cats| - 1].id)
  }

  lemma {:induction false} SumInNext(channels: seq<Channel>, c: Channel, cats: seq<Managed>)
    requires DistinctIds(cats)
    ensures SumIn(channels + [c], cats) == SumIn(channels, cats) + if InPool(c, cats) then 1 else 0
  {
    if cats != [] {
      var n := |cats| - 1;
      SumInNext(channels, c, cats[..n]);
      CountSnoc(channels, c, cats[n].id);
      InPoolNext(c, cats);
    }
  }

  lemma InPoolNext(c: Channel, cats: seq<Managed>)
    requires cats != [] && DistinctIds(cats)
    ensures var n := |cats| - 1;
            && (InPool(c, cats) <==> InPool(c, cats[..n]) || (c.kind == TextChannel && c.parent == Some(cats[n].id)))
            && !(InPool(c, cats[..n]) && c.parent == Some(cats[n].id))
  {
    var n := |cats| - 1;
    assert forall i :: 0 <= i < n ==> cats[..n][i] == cats[i];
    if InPool(c, cats[..n]) {
      var i :| 0 <= i < n && cats[..n][i].id == c.parent.value;
      assert cats[i].id == c.parent.value;
    }
  }

  lemma {:induction false} SumInNone(cats: seq<Managed>)
    ensures SumIn([], cats) == 0
  {
    if cats != [] {
      SumInNone(cats[..|cats| - 1]);
    }
  }

  ghost predicate AllHooked(channels: seq<Channel>, hooks: set<nat>) {
    forall i :: 0 <= i < |channels| ==> channels[i].id in hooks
  }

  lemma {:induction false} ListedCount(channels: seq<Channel>, cats: seq<Managed>, hooks: set<nat>)
    requires DistinctIds(cats) && AllHooked(channels, hooks)
    ensures |Listed(channels, cats, hooks)| == SumIn(channels, cats)
  {
    if channels == [] {
      SumInNone(cats);
    } else {
      var n := |channels| - 1;
      ListedCount(channels[..n], cats, hooks);
      SumInNext(channels[..n], channels[n], cats);
      assert channels == channels[..n] + [channels[n]];
    }
  }

  /** What a listing shows of the categories of a filling: the old ones as they were counted,
      the new ones empty. */
  ghost predicate InListing(channels: seq<Channel>, start: Filling, f: Filling) {
    && |start.cats| <= |f.cats|
    && (forall i :: 0 <= i < |start.cats| ==>
          f.cats[i].id == start.cats[i].id && start.cats[i].count == CountIn(channels, start.cats[i].id))
    && (forall i :: |start.cats| <= i < |f.cats| ==> CountIn(channels, f.cats[i].id) == 0)
  }

  /** The first k categories of a filling, counted in the listing it started from: the old ones
      as they were, the new ones empty. */
  lemma {:induction false} SumInListing(channels: seq<Channel>, start: Filling, f: Filling, k: nat)
    requires k <= |f.cats| && InListing(channels, start, f)
    ensures SumIn(channels, f.cats[..k]) == Sum(start.cats[..Min(k, |start.cats|)])
  {
    if k > 0 {
      SumInListing(channels, start, f, k - 1);
      assert f.cats[..k][..k - 1] == f.cats[..k - 1];
      if k <= |start.cats| {
        assert start.cats[..k][..k - 1] == start.cats[..k - 1];
      }
    }
  }

  /** The base category changes no count. */
  lemma ListingCounts(channels: seq<Channel>, base: Base, id: nat)
    requires GoodBase(channels, base)
    ensures CountIn(base.guild.channels, id) == CountIn(channels, id)
  {
    if base.guild.channels != channels {
      var name :| base.guild.channels == channels + [Channel(base.id, Category, name, None)];
      CountSnoc(channels, Channel(base.id, Category, name, None), id);
    }
  }

  ghost predicate EmptyNew(start: Filling, f: Filling) {
    && start.guild.channels <= f.guild.channels
    && forall i :: |start.cats| <= i < |f.cats| ==> CountIn(start.guild.channels, f.cats[i].id) == 0
  }

  lemma OpenedIsEmpty(f: Filling)
    requires Agrees(f) && OpensWell(f) && Free(f.cats) == 0
    ensures |PlaceOne(f).cats| == |f.cats| + 1 && CountIn(f.guild.channels, PlaceOne(f).cats[|f.cats|].id) == 0
  {
    NoneFree(f.cats);
    OpenIs(f);
    CountNone(f.guild, |f.guild.channels|);
    assert f.guild.channels[..|f.guild.channels|] == f.guild.channels;
  }

  lemma EmptyNewOn(start: Filling, f: Filling)
    requires EmptyNew(start, f) && Agrees(f) && OpensWell(f) && Stands(f)
    ensures EmptyNew(start, PlaceOne(f))
  {
    AgreesHasCats(f);
    var r := PlaceOne(f);
    NoneFree(f.cats);
    if Free(f.cats) == 0 {
      OpenedIsEmpty(f);
      CountPrefix(start.guild.channels, f.guild.channels, r.cats[|f.cats|].id);
    } else {
      OneMore(f);
    }
    PlaceStands(f);
    hide Agrees, OpensWell, Stands, CountIn, Free, Adds, FirstFree;
    PlacePrefix(f);
    forall i | |start.cats| <= i < |r.cats| ensures CountIn(start.guild.channels, r.cats[i].id) == 0 {
      if i < |f.cats| {
        PlaceOverfillsNone(f, i);
      }
    }
  }

  lemma PlacePrefix(f: Filling)
    requires |f.cats| > 0 && Adds(f, PlaceOne(f))
    ensures f.guild.channels <= PlaceOne(f).guild.channels
  {
  }

  lemma {:induction false} FillEmptyNew(start: Filling, n: nat)
    requires |start.cats| > 0 && Agrees(start) && Stands(start) && AllOpenWell(start, n)
    ensures EmptyNew(start, Fill(start, n))
  {
    hide Agrees, Stands, OpensWell, PlaceOne, EmptyNew;
    if n > 0 {
      FillEmptyNew(start, n - 1);
      FillAgrees(start, n - 1);
      FillStands(start, n - 1);
      assert OpensWell(Fill(start, n - 1));
      EmptyNewOn(start, Fill(start, n - 1));
    } else {
      NothingNew(start);
    }
  }

  lemma NothingNew(start: Filling)
    ensures EmptyNew(start, start)
  {
  }

  lemma StartStands(channels: seq<Channel>, base: Base)
    requires GoodBase(channels, base)
    ensures var start := Start(channels, base); |start.cats| > 0 && Agrees(start) && Stands(start)
  {
    StartTracks(channels, base);
  }

  lemma StartCountsListing(channels: seq<Channel>, base: Base, i: nat)
    requires GoodBase(channels, base) && i < |Start(channels, base).cats|
    ensures var start := Start(channels, base);
            start.guild == base.guild && start.cats[i].count == CountIn(channels, start.cats[i].id)
  {
    StartCats(channels, base);
  }

  lemma KeepsIds(start: Filling, n: nat, i: nat)
    requires i < |start.cats|
    ensures |start.cats| <= |Fill(start, n).cats| && Fill(start, n).cats[i].id == start.cats[i].id
  {
    NoneOverfilled(start, n);
    hide Fill;
  }

  lemma AgreesIds(f: Filling)
    requires Agrees(f)
    ensures DistinctIds(f.cats)
  {
  }

  lemma EmptyNewAt(start: Filling, f: Filling, i: nat)
    requires EmptyNew(start, f) && |start.cats| <= i < |f.cats|
    ensures CountIn(start.guild.channels, f.cats[i].id) == 0
  {
  }

  /** When every webhook could be had and every opening goes well, the listed channels of the
      pool are those counted at the start. */
  lemma ListedIsSum(channels: seq<Channel>, base: Base, n: nat, hooks: set<nat>)
    requires GoodBase(channels, base) && AllHooked(channels, hooks)
    requires |Start(channels, base).cats| > 0 && AllOpenWell(Start(channels, base), n)
    ensures |Listed(channels, Fill(Start(channels, base), n).cats, hooks)| == Sum(Start(channels, base).cats)
  {
    hide *;
    var start := Start(channels, base);
    var f := Fill(start, n);
    StartStands(channels, base);
    FillAgrees(start, n);
    AgreesIds(f);
    FillInListing(channels, base, n);
    SumInAll(channels, start, f);
    ListedCount(channels, f.cats, hooks);
  }

  lemma SumInAll(channels: seq<Channel>, start: Filling, f: Filling)
    requires InListing(channels, start, f)
    ensures SumIn(channels, f.cats) == Sum(start.cats)
  {
    SumInListing(channels, start, f, |f.cats|);
    assert f.cats[..|f.cats|] == f.cats && start.cats[..|start.cats|] == start.cats;
  }

  lemma FillInListing(channels: seq<Channel>, base: Base, n: nat)
    requires GoodBase(channels, base) && |Start(channels, base).cats| > 0 && AllOpenWell(Start(channels, base), n)
    ensures InListing(channels, Start(channels, base), Fill(Start(channels, base), n))
  {
    var start := Start(channels, base);
    hide GoodBase, Start, Fill, Agrees, Stands, AllOpenWell, EmptyNew, CountIn;
    StartStands(channels, base);
    FillEmptyNew(start, n);
    KeepsIds(start, n, 0);
    forall i | 0 <= i < |start.cats|
      ensures Fill(start, n).cats[i].id == start.cats[i].id &&
              start.cats[i].count == CountIn(channels, start.cats[i].id)
    {
      KeepsIds(start, n, i);
      StartCountsListing(channels, base, i);
    }
    NewInListing(channels, base, Fill(start, n));
  }

  lemma NewInListing(channels: seq<Channel>, base: Base, f: Filling)
    requires GoodBase(channels, base) && |Start(channels, base).cats| > 0 && EmptyNew(Start(channels, base), f)
    ensures forall i :: |Start(channels, base).cats| <= i < |f.cats| ==> CountIn(channels, f.cats[i].id) == 0
  {
    var start := Start(channels, base);
    StartCountsListing(channels, base, 0);
    hide GoodBase, Start, EmptyNew, CountIn;
    forall i | |start.cats| <= i < |f.cats| ensures CountIn(channels, f.cats[i].id) == 0 {
      EmptyNewAt(start, f, i);
      ListingCounts(channels, base, f.cats[i].id);
    }
  }

  /** On the server itself, no category holds more than 40, or than it held at the start. */
  ghost predicate CapsHold(start: Filling, f: Filling) {
    forall i :: 0 <= i < |f.cats| ==> CountIn(f.guild.channels, f.cats[i].id) <= Cap(start, f, i)
  }

  function Cap(start: Filling, f: Filling, i: nat): nat
    requires i < |f.cats|
  {
    if i < |start.cats| then Max(MAX_PER_CATEGORY, CountIn(start.guild.channels, f.cats[i].id)) else MAX_PER_CATEGORY
  }

  lemma FillHoldsCaps(start: Filling, n: nat)
    requires |start.cats| > 0 && Agrees(start) && AllOpenWell(start, n)
    ensures CapsHold(start, Fill(start, n))
  {
    var f := Fill(start, n);
    forall i | 0 <= i < |f.cats| ensures CountIn(f.guild.channels, f.cats[i].id) <= Cap(start, f, i) {
      hide Agrees, AllOpenWell, CountIn, Fill;
      NoneOverfilledOnServer(start, n, i);
    }
  }

  // ----- when a complete sync is exact -----

  /** What a complete sync should leave: a pool of exactly the channels asked for, or those
      there were if more, each named once; as few new categories as can hold the new channels;
      and none over 40, or what it had before. */
  ghost predicate Exact(g: Guild, start: Filling, desired: int, hooks: set<nat>)
    requires |start.cats| > 0
  {
    var n := Missing(desired, Sum(start.cats));
    var f := Fill(start, n);
    var pool := Listed(g.channels, f.cats, hooks) + f.made;
    && |f.made| == n && |pool| == Max(Sum(start.cats), Clamp(desired)) && NoDuplicates(pool)
    && |f.cats| - |start.cats| == Needed(n, Free(start.cats)) && CapsHold(start, f)
  }

  lemma ExactParts(g: Guild, start: Filling, desired: int, hooks: set<nat>)
    requires |start.cats| > 0
    requires var n := Missing(desired, Sum(start.cats)); var f := Fill(start, n);
             |f.made| == n && NoDuplicates(Listed(g.channels, f.cats, hooks) + f.made)
    ensures var n := Missing(desired, Sum(start.cats)); var f := Fill(start, n);
            Exact(g, start, desired, hooks) <==>
              CapsHold(start, f) && |Listed(g.channels, f.cats, hooks)| == Sum(start.cats)
  {
    OpensAsFewAsNeeded(start, Missing(desired, Sum(start.cats)));
    hide Fill, CapsHold, NoDuplicates, Listed, Sum, Free, Needed, Clamp;
  }

  /** A category that is managed already and found again is given a channel too many. */
  lemma FoundAgain(start: Filling, k: nat, n: nat)
    requires |start.cats| > 0 && Agrees(start) && Stands(start) && k < n && AllOpenWell(start, k)
    requires var f := Fill(start, k);
             Free(f.cats) == 0 && Found(f).Some? && Manages(f.cats, Found(f).value)
    ensures !CapsHold(start, Fill(start, n))
  {
    hide *;
    var i := ManagedAt(Fill(start, k).cats, Found(Fill(start, k)).value);
    FillStands(start, k);
    GivenOne(start, k, Found(Fill(start, k)).value);
    FillAgrees(start, k);
    AgreesAt(Fill(start, k), i);
    AllFull(Fill(start, k), i);
    OneTooMany(start, k, n, i);
  }

  lemma OneTooMany(start: Filling, k: nat, n: nat, i: nat)
    requires |start.cats| > 0 && Stands(start) && k < n && i < |Fill(start, k).cats|
    requires var f := Fill(start, k); var id := f.cats[i].id; var held := CountIn(f.guild.channels, id);
             held >= MAX_PER_CATEGORY && CountIn(Fill(start, k + 1).guild.channels, id) == held + 1
    ensures !CapsHold(start, Fill(start, n))
  {
    hide *;
    var id := Fill(start, k).cats[i].id;
    LaterCounts(start, k + 1, n - k - 1, id);
    LaterIds(start, k, n - k, i);
    if i < |start.cats| {
      AtStart(start, k, i, id);
    }
    CapBroken(start, Fill(start, n), i, CountIn(Fill(start, k).guild.channels, id));
  }

  lemma ManagedAt(cats: seq<Managed>, id: nat) returns (i: nat)
    requires Manages(cats, id)
    ensures i < |cats| && cats[i].id == id
  {
    i :| 0 <= i < |cats| && cats[i].id == id;
  }

  lemma AtStart(start: Filling, k: nat, i: nat, id: nat)
    requires |start.cats| > 0 && Stands(start) && i < |start.cats|
    ensures CountIn(start.guild.channels, id) <= CountIn(Fill(start, k).guild.channels, id)
  {
    hide Stands, CountIn, PlaceOne;
    FillZero(start);
    LaterCounts(start, 0, k, id);
  }

  lemma FillZero(start: Filling)
    requires |start.cats| > 0
    ensures Fill(start, 0).cats == start.cats && Fill(start, 0).guild == start.guild
  {
  }

  lemma AllFull(f: Filling, i: nat)
    requires Free(f.cats) == 0 && i < |f.cats|
    ensures f.cats[i].count >= MAX_PER_CATEGORY
  {
    NoneFree(f.cats);
  }

  /** The channel placed when all are full goes to the category found. */
  lemma GivenOne(start: Filling, k: nat, id: nat)
    requires |start.cats| > 0 && Stands(Fill(start, k))
    requires var f := Fill(start, k); Free(f.cats) == 0 && Found(f) == Some(id)
    ensures CountIn(Fill(start, k + 1).guild.channels, id) == CountIn(Fill(start, k).guild.channels, id) + 1
    ensures |Fill(start, k + 1).cats| == |Fill(start, k).cats| + 1 &&
            Fill(start, k + 1).cats[|Fill(start, k).cats|].id == id
  {
    var f := Fill(start, k);
    NoneFree(f.cats);
    OpenIs(f);
    var o := Open(f);
    hide Stands, Found, CountIn, Free, Open, FirstFree;
    CountSnoc(o.guild.channels, Channel(o.guild.next, TextChannel, "storage", Some(id)), id);
  }

  lemma LaterCounts(start: Filling, k: nat, m: nat, id: nat)
    requires |start.cats| > 0 && Stands(start)
    ensures CountIn(Fill(start, k).guild.channels, id) <= CountIn(Fill(start, k + m).guild.channels, id)
  {
    hide Stands, Fill, CountIn;
    FillFurther(start, k, m);
    FurtherStands(Fill(start, k), Fill(start, k + m));
    hide Grows;
    CountPrefix(Fill(start, k).guild.channels, Fill(start, k + m).guild.channels, id);
  }

  lemma LaterIds(start: Filling, k: nat, m: nat, i: nat)
    requires |start.cats| > 0 && Stands(start) && i < |Fill(start, k).cats|
    ensures i < |Fill(start, k + m).cats| && Fill(start, k + m).cats[i].id == Fill(start, k).cats[i].id
  {
    hide Stands, Fill, Adds;
    FillFurther(start, k, m);
    FurtherStands(Fill(start, k), Fill(start, k + m));
  }

  lemma CapBroken(start: Filling, f: Filling, i: nat, c: nat)
    requires i < |f.cats| && MAX_PER_CATEGORY <= c < CountIn(f.guild.channels, f.cats[i].id)
    requires i < |start.cats| ==> CountIn(start.guild.channels, f.cats[i].id) <= c
    ensures !CapsHold(start, f)
  {
    hide CountIn;
  }

  /** Managing more lists no less. */
  lemma {:induction false} ListedMore(channels: seq<Channel>, cats: seq<Managed>, more: seq<Managed>, hooks: set<nat>)
    requires forall id :: Manages(cats, id) ==> Manages(more, id)
    ensures |Listed(channels, cats, hooks)| <= |Listed(channels, more, hooks)|
  {
    if channels != [] {
      var n := |channels| - 1;
      ListedMore(channels[..n], cats, more, hooks);
      InPoolMore(channels[n], cats, more);
      hide InPool, Manages;
    }
  }

  lemma InPoolMore(c: Channel, cats: seq<Managed>, more: seq<Managed>)
    requires forall id :: Manages(cats, id) ==> Manages(more, id)
    ensures InPool(c, cats) ==> InPool(c, more)
  {
    if InPool(c, cats) {
      assert Manages(cats, c.parent.value);
      assert Manages(more, c.parent.value);
    }
  }

  /** A category found that is not managed but has storage channels brings them into the pool. */
  lemma FoundForeign(channels: seq<Channel>, base: Base, k: nat, n: nat, hooks: set<nat>)
    requires GoodBase(channels, base) && AllHooked(channels, hooks) && k < n
    requires |Start(channels, base).cats| > 0
    requires var f := Fill(Start(channels, base), k);
             Free(f.cats) == 0 && Found(f).Some? && !Manages(f.cats, Found(f).value)
             && CountIn(f.guild.channels, Found(f).value) > 0
    ensures |Listed(channels, Fill(Start(channels, base), n).cats, hooks)| > Sum(Start(channels, base).cats)
  {
    var start := Start(channels, base);
    var f, last := Fill(start, k), Fill(start, n);
    var id := Found(f).value;
    var both := start.cats + [Managed(id, "", 0, 0)];
    hide *;
    StartStands(channels, base);
    FillStands(start, k);
    GivenOne(start, k, id);
    UnmanagedCount(start, k, id);
    ListingCounts(channels, base, id);
    StartCountsListing(channels, base, 0);
    BothCount(channels, base, id, hooks);
    BothManaged(start, k, n, id);
    ListedMore(channels, both, last.cats, hooks);
  }

  lemma UnmanagedCount(start: Filling, k: nat, id: nat)
    requires |start.cats| > 0 && Stands(start) && !Manages(Fill(start, k).cats, id)
    ensures CountIn(Fill(start, k).guild.channels, id) == CountIn(start.guild.channels, id) && !Manages(start.cats, id)
  {
    hide Stands, Fill, CountIn, Manages, Grows;
    FillFurther(start, 0, k);
    FillZero(start);
    FurtherStands(Fill(start, 0), Fill(start, k));
  }

  lemma BothCount(channels: seq<Channel>, base: Base, id: nat, hooks: set<nat>)
    requires GoodBase(channels, base) && AllHooked(channels, hooks) && !Manages(Start(channels, base).cats, id)
    ensures |Listed(channels, Start(channels, base).cats + [Managed(id, "", 0, 0)], hooks)|
         == Sum(Start(channels, base).cats) + CountIn(channels, id)
  {
    var start := Start(channels, base);
    var c := Managed(id, "", 0, 0);
    hide *;
    StartStands(channels, base);
    AgreesIds(start);
    OneMoreIsDistinct(start.cats, c);
    SumAtStart(channels, base);
    SumInSnoc(channels, start.cats, c);
    ListedCount(channels, start.cats + [c], hooks);
  }

  lemma OneMoreIsDistinct(cats: seq<Managed>, c: Managed)
    requires DistinctIds(cats) && !Manages(cats, c.id)
    ensures DistinctIds(cats + [c])
  {
    assert forall i :: 0 <= i < |cats| ==> cats[i].id != c.id;
  }

  lemma SumInSnoc(channels: seq<Channel>, cats: seq<Managed>, c: Managed)
    ensures SumIn(channels, cats + [c]) == SumIn(channels, cats) + CountIn(channels, c.id)
  {
    assert (cats + [c])[..|cats|] == cats;
    hide CountIn;
  }

  lemma SumAtStart(channels: seq<Channel>, base: Base)
    requires GoodBase(channels, base)
    ensures SumIn(channels, Start(channels, base).cats) == Sum(Start(channels, base).cats)
  {
    var start := Start(channels, base);
    hide GoodBase, Start, Sum, SumIn, CountIn;
    forall i | 0 <= i < |start.cats| ensures start.cats[i].count == CountIn(channels, start.cats[i].id) {
      StartCountsListing(channels, base, i);
    }
    SumInAll(channels, start, start);
  }

  lemma BothManaged(start: Filling, k: nat, n: nat, id: nat)
    requires |start.cats| > 0 && Stands(start) && k < n
    requires |Fill(start, k + 1).cats| == |Fill(start, k).cats| + 1 &&
             Fill(start, k + 1).cats[|Fill(start, k).cats|].id == id
    ensures forall x :: Manages(start.cats + [Managed(id, "", 0, 0)], x) ==> Manages(Fill(start, n).cats, x)
  {
    hide Stands, Fill;
    var last := Fill(start, n);
    LaterIds(start, k + 1, n - k - 1, |Fill(start, k).cats|);
    assert last.cats[|Fill(start, k).cats|].id == id;
    FillZero(start);
    forall x | Manages(start.cats + [Managed(id, "", 0, 0)], x) ensures Manages(last.cats, x) {
      if x != id {
        var both := start.cats + [Managed(id, "", 0, 0)];
        var i :| 0 <= i < |both| && both[i].id == x;
        LaterIds(start, 0, n, i);
        assert last.cats[i].id == x;
      }
    }
  }

  lemma PoolIsDistinctOnly(g: Guild, base: Base, n: nat, hooks: set<nat>)
    requires Fits(g) && GoodBase(g.channels, base) && base.guild.next >= g.next && |Start(g.channels, base).cats| > 0
    ensures var f := Fill(Start(g.channels, base), n);
            |f.made| == n && NoDuplicates(Listed(g.channels, f.cats, hooks) + f.made)
  {
    hide *;
    PoolIsDistinct(g, base, n, hooks);
  }

  lemma StartIsExact(g: Guild, base: Base, n: nat, hooks: set<nat>)
    requires GoodBase(g.channels, base) && AllHooked(g.channels, hooks) && |Start(g.channels, base).cats| > 0
    ensures var start := Start(g.channels, base); var f := Fill(start, n);
            AllOpenWell(start, n) <==> CapsHold(start, f) && |Listed(g.channels, f.cats, hooks)| == Sum(start.cats)
  {
    var start := Start(g.channels, base);
    hide *;
    StartStands(g.channels, base);
    if AllOpenWell(start, n) {
      FillHoldsCaps(start, n);
      ListedIsSum(g.channels, base, n, hooks);
    } else {
      var k := FirstBad(start, n);
      BadIs(Fill(start, k));
      if Manages(Fill(start, k).cats, Found(Fill(start, k)).value) {
        FoundAgain(start, k, n);
      } else {
        FoundForeign(g.channels, base, k, n, hooks);
      }
    }
  }

  lemma BadIs(f: Filling)
    requires |f.cats| > 0 && !OpensWell(f)
    ensures Free(f.cats) == 0 && Found(f).Some?
    ensures Manages(f.cats, Found(f).value) || CountIn(f.guild.channels, Found(f).value) > 0
  {
  }

  lemma FoundBaseIsGood(g: Guild, pinned: Option<nat>, prefix: string, base: Base)
    requires Fits(g) && TrimSpace(prefix) == prefix && FindBase(g, pinned, prefix) == Some(base)
    ensures GoodBase(g.channels, base) && base.guild.next >= g.next
  {
    BaseIsGood(g, pinned, prefix);
    hide GoodBase, Fits, TrimSpace;
  }

  lemma ExactIfAllOpenWell(g: Guild, pinned: Option<nat>, prefix: string, desired: int, hooks: set<nat>, base: Base)
    requires Fits(g) && TrimSpace(prefix) == prefix && AllHooked(g.channels, hooks)
    requires FindBase(g, pinned, prefix) == Some(base)
    ensures var start := Start(g.channels, base);
            |start.cats| > 0 && Stands(start) &&
              (Exact(g, start, desired, hooks) <==> AllOpenWell(start, Missing(desired, Sum(start.cats))))
  {
    FoundBaseIsGood(g, pinned, prefix, base);
    hide *;
    var start := Start(g.channels, base);
    var n := Missing(desired, Sum(start.cats));
    StartStands(g.channels, base);
    PoolIsDistinctOnly(g, base, n, hooks);
    ExactParts(g, start, desired, hooks);
    StartIsExact(g, base, n, hooks);
  }

  /** A sync that no call fails is exact if and only if the names of the categories it needs
      are free in the listing it starts from, or lead to categories that are not managed and
      empty, and no two of them are the same up to case. */
  lemma SyncIsExact(g: Guild, pinned: Option<nat>, prefix: string, desired: int, hooks: set<nat>, base: Base)
    requires Fits(g) && TrimSpace(prefix) == prefix && AllHooked(g.channels, hooks)
    requires FindBase(g, pinned, prefix) == Some(base)
    ensures var start := Start(g.channels, base);
            |start.cats| > 0 &&
              (Exact(g, start, desired, hooks) <==>
                AllClear(start, Needed(Missing(desired, Sum(start.cats)), Free(start.cats))))
  {
    hide *;
    var start := Start(g.channels, base);
    var n := Missing(desired, Sum(start.cats));
    ExactIfAllOpenWell(g, pinned, prefix, desired, hooks, base);
    OpensAsFewAsNeeded(start, n);
    WellExactlyWhenClear(start, n);
  }

  // ----- a server on which it is not -----

  /** A base category and k storage channels in it. */
  function FullServer(name: string, k: nat): (channels: seq<Channel>)
    ensures |channels| == k + 1 && channels[0] == Channel(0, Category, name, None)
    ensures forall i :: 0 < i <= k ==> channels[i] == Channel(i, TextChannel, "storage", Some(0))
  {
    if k == 0 then [Channel(0, Category, name, None)]
    else FullServer(name, k - 1) + [Channel(k, TextChannel, "storage", Some(0))]
  }

  lemma {:induction false} FullServerCount(name: string, k: nat)
    ensures CountIn(FullServer(name, k), 0) == k
  {
    var channels := FullServer(name, k);
    if k > 0 {
      FullServerCount(name, k - 1);
      CountSnoc(FullServer(name, k - 1), Channel(k, TextChannel, "storage", Some(0)), 0);
    } else {
      assert channels[..0] == [];
    }
  }

  lemma {:induction false} NoOverflows(channels: seq<Channel>, base: nat, name: string)
    requires forall i :: 0 <= i < |channels| ==> channels[i].kind != Category || channels[i].id == base
    ensures Overflows(channels, base, name) == []
  {
    hide OverflowIndex;
    if channels != [] {
      NoOverflows(channels[..|channels| - 1], base, name);
    }
  }

  lemma FullServerBase(name: string, k: nat)
    requires name != ""
    ensures var g := Guild(FullServer(name, k), k + 1);
            && Fits(g) && FindBase(g, Some(0), "") == Some(Base(g, 0, name))
            && FindCategory(g.channels, name) == Some(0)
  {
    var channels := FullServer(name, k);
    assert channels[0].id == 0 && channels[0].name == name && channels[0].kind == Category;
    assert NameOf(channels, 0) == name;
    assert FindCategory(channels, name) == Some(0);
    assert Fits(Guild(channels, k + 1));
  }

  lemma SortOne(c: Managed)
    ensures SortByOrder([c]) == [c] && MaxOrder([c]) == Max(1, c.order)
  {
    assert [c][..0] == [];
    assert [] + [c] == [c];
  }

  lemma StartOfOne(channels: seq<Channel>, base: Base)
    requires Overflows(channels, base.id, base.name) == []
    ensures Start(channels, base)
         == Filling(base.guild, [Managed(base.id, base.name, 1, CountIn(channels, base.id))], 1, [])
  {
    var c := Managed(base.id, base.name, 1, 0);
    var counted := Managed(base.id, base.name, 1, CountIn(channels, base.id));
    SortOne(c);
    SortOne(counted);
    hide CountIn, Overflows, SortByOrder, MaxOrder;
    assert [c] + Overflows(channels, base.id, base.name) == [c];
    assert Recount([c], channels) == [counted];
  }

  lemma FullServerStart(name: string, k: nat)
    requires name != ""
    ensures var g := Guild(FullServer(name, k), k + 1);
            Start(g.channels, Base(g, 0, name)) == Filling(g, [Managed(0, name, 1, k)], 1, [])
  {
    var g := Guild(FullServer(name, k), k + 1);
    FullServerCount(name, k);
    NoOverflows(g.channels, 0, name);
    hide *;
    StartOfOne(g.channels, Base(g, 0, name));
  }

  /** A full category whose overflow name is cut to its own opens itself. */
  lemma OpensItself(f: Filling, name: string)
    requires |name| == MAX_NAME && TrimSpace(name) == name && f.order == 1
    requires f.cats == [Managed(0, name, 1, MAX_PER_CATEGORY)] && FindCategory(f.guild.channels, name) == Some(0)
    ensures !OpensWell(f)
  {
    CutIsBase(name, 2);
    SumOfOne(f.cats[0]);
    assert f.cats[0].id == 0;
    hide TrimSpace, CutName, OverflowName, FindCategory;
    assert Found(f) == Some(0);
  }

  lemma SumOfOne(c: Managed)
    ensures Sum([c]) == c.count && Free([c]) == Max(0, MAX_PER_CATEGORY - c.count)
  {
    assert [c][..0] == [];
  }

  lemma BadAtOnce(f: Filling, n: nat)
    requires |f.cats| > 0 && !OpensWell(f) && n > 0
    ensures !AllOpenWell(f, n)
  {
    assert !OpensWell(Fill(f, 0));
  }

  lemma TrimNothing()
    ensures TrimSpace("") == ""
  {
  }

  lemma OneMissing(c: Managed)
    requires c.count == MAX_PER_CATEGORY
    ensures Missing(MAX_PER_CATEGORY + 1, Sum([c])) == 1
  {
    SumOfOne(c);
  }

  lemma IsFullName(name: string)
    requires |name| == 90
    ensures |name| == MAX_NAME
  {
  }

  lemma FullServerHooked(name: string, k: nat, hooks: set<nat>)
    requires forall i :: 0 <= i <= k ==> i in hooks
    ensures AllHooked(FullServer(name, k), hooks)
  {
  }

  /** A full base category whose name is 90 letters long, and one channel more asked for: the
      sync is not exact. */
  lemma LongBaseSyncIsNot(hooks: set<nat>)
    requires forall i :: 0 <= i <= MAX_PER_CATEGORY ==> i in hooks
    ensures var g := Guild(FullServer(Letters(90), MAX_PER_CATEGORY), MAX_PER_CATEGORY + 1);
            var start := Start(g.channels, Base(g, 0, Letters(90)));
            |start.cats| > 0 && !Exact(g, start, MAX_PER_CATEGORY + 1, hooks)
  {
    hide *;
    var name := Letters(90);
    var g := Guild(FullServer(name, MAX_PER_CATEGORY), MAX_PER_CATEGORY + 1);
    FullServerHooked(name, MAX_PER_CATEGORY, hooks);
    var base := Base(g, 0, name);
    var start := Start(g.channels, base);
    FullServerStart(name, MAX_PER_CATEGORY);
    FullServerBase(name, MAX_PER_CATEGORY);
    LettersAreTrimmed(90);
    IsFullName(name);
    OpensItself(start, name);
    OneMissing(start.cats[0]);
    BadAtOnce(start, 1);
    TrimNothing();
    ExactIfAllOpenWell(g, Some(0), "", MAX_PER_CATEGORY + 1, hooks, base);
  }
}
