/** A server's storage channels, kept in categories of at most 40, with numbered overflow
    categories opened when all are full. The server's channel list is a value that the calls
    to it return anew. */
module Pool {
  import opened Wrappers
  import opened Bytes
  import opened Text
  import opened PoolNames

  const MAX_PER_CATEGORY: nat := 40
  const DEFAULT_TARGET: nat := 8
  const MAX_TARGET: nat := 200

  datatype Kind = Category | TextChannel | Other

  datatype Channel = Channel(id: nat, kind: Kind, name: string, parent: Option<nat>)

  /** A server: its channels and the next id it gives out. */
  datatype Guild = Guild(channels: seq<Channel>, next: nat)

  datatype Managed = Managed(id: nat, name: string, order: int, count: nat)

  // ----- the server -----

  ghost predicate Fits(g: Guild) {
    && (forall i :: 0 <= i < |g.channels| ==> g.channels[i].id < g.next)
    && (forall i :: 0 <= i < |g.channels| && g.channels[i].parent.Some? ==> g.channels[i].parent.value < g.next)
    && (forall i, j :: 0 <= i < j < |g.channels| ==> g.channels[i].id != g.channels[j].id)
  }

  function Create(g: Guild, kind: Kind, name: string, parent: Option<nat>): Guild {
    Guild(g.channels + [Channel(g.next, kind, name, parent)], g.next + 1)
  }

  function FindCategory(channels: seq<Channel>, name: string): Option<nat> {
    if channels == [] then None
    else if channels[0].kind == Category && EqualFold(channels[0].name, name) then Some(channels[0].id)
    else FindCategory(channels[1..], name)
  }

  function FindOrCreateCategory(g: Guild, name: string): (Guild, nat) {
    var found := FindCategory(g.channels, CutName(name));
    if found.Some? then (g, found.value) else (Create(g, Category, CutName(name), None), g.next)
  }

  /** The storage channels that hang on a category. */
  function CountIn(channels: seq<Channel>, category: nat): nat {
    if channels == [] then 0
    else
      CountIn(channels[..|channels| - 1], category) + if StoredIn(channels[|channels| - 1], category) then 1 else 0
  }

  predicate StoredIn(c: Channel, category: nat) {
    c.kind == TextChannel && c.parent == Some(category)
  }

  // ----- filling -----

  function FirstFree(cats: seq<Managed>): (i: nat)
    ensures i <= |cats| && (i < |cats| ==> cats[i].count < MAX_PER_CATEGORY)
    ensures forall j :: 0 <= j < i ==> cats[j].count >= MAX_PER_CATEGORY
  {
    if cats == [] || cats[0].count < MAX_PER_CATEGORY then 0 else 1 + FirstFree(cats[1..])
  }

  /** The state of SyncPool's loop: made are the ids of the channels created so far. */
  datatype Filling = Filling(guild: Guild, cats: seq<Managed>, order: int, made: seq<nat>)

  function Open(f: Filling): Filling
    requires |f.cats| > 0
  {
    var order := Increment(f.order);
    var name := OverflowName(f.cats[0].name, order);
    var (guild, id) := FindOrCreateCategory(f.guild, name);
    f.(guild := guild, cats := f.cats + [Managed(id, name, order, 0)], order := order)
  }

  function Shelve(f: Filling, i: nat): Filling
    requires i < |f.cats|
  {
    f.(guild := Create(f.guild, TextChannel, "storage", Some(f.cats[i].id)),
       cats := f.cats[i := f.cats[i].(count := f.cats[i].count + 1)],
       made := f.made + [f.guild.next])
  }

  function PlaceOne(f: Filling): (r: Filling)
    requires |f.cats| > 0
    ensures |r.cats| >= |f.cats|
  {
    var i := FirstFree(f.cats);
    if i == |f.cats| then Shelve(Open(f), i) else Shelve(f, i)
  }

  function Fill(f: Filling, n: nat): (r: Filling)
    requires |f.cats| > 0
    ensures |r.cats| >= |f.cats|
  {
    if n == 0 then f else PlaceOne(Fill(f, n - 1))
  }

  /** Places left in categories that are not full. */
  function Free(cats: seq<Managed>): nat {
    if cats == [] then 0
    else Free(cats[..|cats| - 1]) + Max(0, MAX_PER_CATEGORY - cats[|cats| - 1].count)
  }

  lemma {:induction false} FreeUpdate(cats: seq<Managed>, i: nat)
    requires i < |cats| && cats[i].count < MAX_PER_CATEGORY
    ensures Free(cats[i := cats[i].(count := cats[i].count + 1)]) + 1 == Free(cats)
  {
    var n := |cats| - 1;
    var next := cats[i := cats[i].(count := cats[i].count + 1)];
    if i == n {
      assert next[..n] == cats[..n];
    } else {
      assert next[..n] == cats[..n][i := cats[i].(count := cats[i].count + 1)];
      FreeUpdate(cats[..n], i);
    }
  }

  lemma {:induction false} NoneFree(cats: seq<Managed>)
    ensures FirstFree(cats) == |cats| <==> Free(cats) == 0
  {
    if cats != [] {
      var n := |cats| - 1;
      NoneFree(cats[..n]);
      assert forall j :: 0 <= j < n ==> cats[..n][j] == cats[j];
      if FirstFree(cats[..n]) < n {
        assert cats[FirstFree(cats[..n])].count < MAX_PER_CATEGORY;
      }
    }
  }

  lemma OneMore(f: Filling)
    requires |f.cats| > 0
    ensures var r := PlaceOne(f); var extra := |r.cats| - |f.cats|;
            && extra == (if Free(f.cats) == 0 then 1 else 0)
            && Free(r.cats) + 1 == Free(f.cats) + MAX_PER_CATEGORY * extra
            && |r.made| == |f.made| + 1
  {
    NoneFree(f.cats);
    var i := FirstFree(f.cats);
    if i == |f.cats| {
      var o := Open(f);
      assert o.cats[..|f.cats|] == f.cats;
      FreeUpdate(o.cats, i);
    } else {
      FreeUpdate(f.cats, i);
    }
  }

  /** How many categories n more channels need beyond the places that are free. */
  function Needed(n: nat, free: nat): nat {
    (Max(0, n - free) + MAX_PER_CATEGORY - 1) / MAX_PER_CATEGORY
  }

  /** First fit opens a category only when all are full, so it opens as few as can hold the
      new channels, each of which is created once. */
  lemma {:induction false} OpensAsFewAsNeeded(f: Filling, n: nat)
    requires |f.cats| > 0
    ensures var r := Fill(f, n);
            && |r.made| == |f.made| + n
            && |r.cats| - |f.cats| == Needed(n, Free(f.cats))
            && Free(r.cats) + n == Free(f.cats) + MAX_PER_CATEGORY * (|r.cats| - |f.cats|)
  {
    hide PlaceOne, Free, Needed;
    if n == 0 {
      NoneNeeded(Free(f.cats));
    } else {
      OpensAsFewAsNeeded(f, n - 1);
      OneMore(Fill(f, n - 1));
      NeededNext(n - 1, Free(f.cats), Free(Fill(f, n - 1).cats));
    }
  }

  lemma NoneNeeded(free: nat)
    ensures Needed(0, free) == 0
  {
  }

  lemma NeededNext(n: nat, free: nat, left: nat)
    requires left + n == free + MAX_PER_CATEGORY * Needed(n, free)
    ensures Needed(n + 1, free) == Needed(n, free) + if left == 0 then 1 else 0
  {
  }

  predicate SameCategory(a: Managed, b: Managed) {
    a.id == b.id && a.name == b.name && a.order == b.order
  }

  ghost predicate CategoryGrows(f: Filling, c: Managed, i: nat) {
    && c.count <= (if i < |f.cats| then Max(MAX_PER_CATEGORY, f.cats[i].count) else MAX_PER_CATEGORY)
    && (i < |f.cats| ==> SameCategory(c, f.cats[i]) && c.count >= f.cats[i].count)
  }

  ghost predicate Grows(f: Filling, r: Filling) {
    |f.cats| <= |r.cats| && forall i :: 0 <= i < |r.cats| ==> CategoryGrows(f, r.cats[i], i)
  }

  lemma GrowsAt(f: Filling, r: Filling, i: nat)
    requires Grows(f, r) && i < |r.cats|
    ensures CategoryGrows(f, r.cats[i], i)
  {
  }

  lemma GrowsOn(f: Filling, r: Filling)
    requires Grows(f, r) && |r.cats| > 0
    ensures Grows(f, PlaceOne(r))
  {
    var next := PlaceOne(r);
    forall i | 0 <= i < |next.cats| ensures CategoryGrows(f, next.cats[i], i) {
      PlaceOverfillsNone(r, i);
      hide PlaceOne;
    }
  }

  /** Full categories are left alone and the others filled up to 40 at most; old ones keep
      their place, id and name. */
  lemma {:induction false} NoneOverfilled(f: Filling, n: nat)
    requires |f.cats| > 0
    ensures Grows(f, Fill(f, n))
  {
    hide PlaceOne;
    if n > 0 {
      hide Grows;
      NoneOverfilled(f, n - 1);
      GrowsOn(f, Fill(f, n - 1));
    }
  }

  lemma PlaceOverfillsNone(f: Filling, i: nat)
    requires |f.cats| > 0 && i < |PlaceOne(f).cats|
    ensures var c := PlaceOne(f).cats[i];
            if i < |f.cats| then
              && SameCategory(c, f.cats[i])
              && (c.count == f.cats[i].count || c.count == f.cats[i].count + 1 <= MAX_PER_CATEGORY)
            else c.count == 1
  {
  }

  // ----- the bookkeeping and the server agree -----

  ghost predicate Counts(g: Guild, cats: seq<Managed>) {
    && (forall i :: 0 <= i < |cats| ==> cats[i].id < g.next && cats[i].count == CountIn(g.channels, cats[i].id))
    && (forall i, j :: 0 <= i < j < |cats| ==> cats[i].id != cats[j].id)
  }

  /** No category on the server carries a number above the highest one known. */
  ghost predicate Known(g: Guild, baseName: string, order: int) {
    forall i :: 0 <= i < |g.channels| && g.channels[i].kind == Category ==>
      OverflowIndex(baseName, g.channels[i].name) <= order
  }

  ghost predicate Tracks(f: Filling) {
    |f.cats| > 0 && f.order >= 1 && Fits(f.guild) && Counts(f.guild, f.cats) && Known(f.guild, f.cats[0].name, f.order)
  }

  lemma CountSnoc(channels: seq<Channel>, c: Channel, id: nat)
    ensures CountIn(channels + [c], id) == CountIn(channels, id) + if StoredIn(c, id) then 1 else 0
  {
    assert (channels + [c])[..|channels|] == channels;
  }

  lemma {:induction false} CountNone(g: Guild, n: nat)
    requires Fits(g) && n <= |g.channels|
    ensures CountIn(g.channels[..n], g.next) == 0
  {
    if n > 0 {
      assert g.channels[..n][..n - 1] == g.channels[..n - 1];
      CountNone(g, n - 1);
    }
  }

  lemma CreateFits(g: Guild, kind: Kind, name: string, parent: Option<nat>)
    requires Fits(g) && (parent.Some? ==> parent.value < g.next)
    ensures Fits(Create(g, kind, name, parent))
  {
  }

  lemma ShelveTracks(f: Filling, i: nat)
    requires Tracks(f) && i < |f.cats|
    ensures Tracks(Shelve(f, i))
  {
    var r := Shelve(f, i);
    var c := Channel(f.guild.next, TextChannel, "storage", Some(f.cats[i].id));
    CreateFits(f.guild, TextChannel, "storage", Some(f.cats[i].id));
    forall j | 0 <= j < |r.cats|
      ensures r.cats[j].id < r.guild.next && r.cats[j].count == CountIn(r.guild.channels, r.cats[j].id) {
      CountSnoc(f.guild.channels, c, f.cats[j].id);
    }
    assert r.guild.channels == f.guild.channels + [c];
    hide Fits, CountIn, OverflowIndex;
  }

  lemma {:induction false} FindsNone(channels: seq<Channel>, name: string)
    ensures FindCategory(channels, name).None?
       <==> forall i :: 0 <= i < |channels| && channels[i].kind == Category ==> !EqualFold(channels[i].name, name)
  {
    if channels != [] {
      FindsNone(channels[1..], name);
      assert forall i :: 0 < i < |channels| ==> channels[i] == channels[1..][i - 1];
    }
  }

  /** A good overflow name is new, so opening makes a category of its own, numbered as told. */
  lemma OpensNew(f: Filling)
    requires Tracks(f) && f.order < MAX_INT64 && GoodName(f.cats[0].name, f.order + 1)
    ensures var r := Open(f); var name := TrimSpace(OverflowName(f.cats[0].name, f.order + 1));
            && Tracks(r) && r.order == f.order + 1
            && r.guild == Create(f.guild, Category, name, None)
            && r.cats == f.cats + [Managed(f.guild.next, OverflowName(f.cats[0].name, r.order), r.order, 0)]
            && OverflowIndex(f.cats[0].name, name) == r.order
  {
    var base, g := f.cats[0].name, f.guild;
    var full := OverflowName(base, f.order + 1);
    var name := TrimSpace(full);
    OverflowNameReadsBack(base, f.order);
    SameNameSameIndex(base, name, full);
    FindsNone(g.channels, name);
    forall i | 0 <= i < |g.channels| && g.channels[i].kind == Category ensures !EqualFold(g.channels[i].name, name) {
      if EqualFold(g.channels[i].name, name) {
        SameNameSameIndex(base, g.channels[i].name, full);
      }
    }
    hide OverflowIndex, TrimSpace, OverflowName, EqualFold, ReadsBack;
    CreateFits(g, Category, name, None);
    NewCounts(g, f.cats, name, full, f.order + 1);
  }

  /** A new category changes no count, and holds nothing. */
  lemma NewCount(g: Guild, name: string, id: nat)
    requires Fits(g)
    ensures CountIn(Create(g, Category, name, None).channels, id) == CountIn(g.channels, id)
    ensures id == g.next ==> CountIn(g.channels, id) == 0
  {
    CountSnoc(g.channels, Channel(g.next, Category, name, None), id);
    CountNone(g, |g.channels|);
    assert g.channels[..|g.channels|] == g.channels;
    hide Fits, CountIn;
  }

  lemma NewCounts(g: Guild, cats: seq<Managed>, name: string, full: string, order: int)
    requires Fits(g) && Counts(g, cats)
    ensures Counts(Create(g, Category, name, None), cats + [Managed(g.next, full, order, 0)])
  {
    var r, next := Create(g, Category, name, None), cats + [Managed(g.next, full, order, 0)];
    assert r.next == g.next + 1;
    hide Fits, CountIn, Create;
    forall i | 0 <= i < |next| ensures next[i].id < r.next && next[i].count == CountIn(r.channels, next[i].id) {
      NewCount(g, name, next[i].id);
    }
  }

  /** Every overflow name that n more channels call for is good. */
  ghost predicate GoodNames(f: Filling, n: nat)
    requires |f.cats| > 0
  {
    forall m :: f.order < m <= f.order + Needed(n, Free(f.cats)) ==> GoodName(f.cats[0].name, m)
  }

  lemma PlaceTracks(f: Filling)
    requires Tracks(f) && (Free(f.cats) == 0 ==> f.order < MAX_INT64 && GoodName(f.cats[0].name, f.order + 1))
    ensures var r := PlaceOne(f);
            Tracks(r) && r.order == f.order + (|r.cats| - |f.cats|) && r.cats[0].name == f.cats[0].name
  {
    NoneFree(f.cats);
    var i := FirstFree(f.cats);
    if i == |f.cats| {
      OpensNew(f);
      ShelveTracks(Open(f), i);
    } else {
      ShelveTracks(f, i);
    }
  }

  /** What a filling keeps while names are good. */
  ghost predicate Follows(f: Filling, r: Filling) {
    && Tracks(r) && |f.cats| > 0
    && r.order == f.order + (|r.cats| - |f.cats|) && r.cats[0].name == f.cats[0].name
  }

  lemma TracksHasCats(f: Filling)
    requires Tracks(f)
    ensures |f.cats| > 0
  {
  }

  lemma FollowsItself(f: Filling)
    requires Tracks(f)
    ensures Follows(f, f)
  {
  }

  lemma FollowsNext(f: Filling, before: Filling)
    requires Follows(f, before)
    requires Free(before.cats) == 0 ==> GoodName(f.cats[0].name, before.order + 1) && before.order < MAX_INT64
    ensures Follows(f, PlaceOne(before))
  {
    hide Tracks, PlaceOne, GoodName, Free;
    TracksHasCats(before);
    PlaceTracks(before);
  }

  /** While names are good, the counts SyncPool keeps are those of the server, and the
      numbers of the categories it opens follow on from the highest there was. */
  lemma {:induction false} FillTracks(f: Filling, n: nat)
    requires Tracks(f) && GoodNames(f, n)
    ensures Follows(f, Fill(f, n))
  {
    TracksHasCats(f);
    hide Tracks, PlaceOne, GoodName, GoodNames, Free, Follows;
    if n == 0 {
      FollowsItself(f);
    } else {
      FewerGoodNames(f, n);
      FillTracks(f, n - 1);
      NextNameGood(f, n);
      FollowsNext(f, Fill(f, n - 1));
    }
  }

  lemma FewerGoodNames(f: Filling, n: nat)
    requires |f.cats| > 0 && n > 0 && GoodNames(f, n)
    ensures GoodNames(f, n - 1)
  {
    assert Needed(n - 1, Free(f.cats)) <= Needed(n, Free(f.cats));
  }

  lemma NextNameGood(f: Filling, n: nat)
    requires |f.cats| > 0 && n > 0 && GoodNames(f, n)
    requires Follows(f, Fill(f, n - 1))
    ensures var before := Fill(f, n - 1);
            Free(before.cats) == 0 ==> GoodName(f.cats[0].name, before.order + 1) && before.order < MAX_INT64
  {
    OpensAsFewAsNeeded(f, n - 1);
    OneMore(Fill(f, n - 1));
    OpensAsFewAsNeeded(f, n);
    hide PlaceOne, Free, Needed, ReadsBack, TrimSpace, Tracks;
  }

  // ----- opening under a name that may be taken -----

  /** The category that opening would find on the server instead of making one. */
  function Found(f: Filling): Option<nat>
    requires |f.cats| > 0
  {
    FindCategory(f.guild.channels, CutName(OverflowName(f.cats[0].name, Increment(f.order))))
  }

  ghost predicate Manages(cats: seq<Managed>, id: nat) {
    exists i :: 0 <= i < |cats| && cats[i].id == id
  }

  /** The next place needs no category, or one whose name is free on the server, or whose name
      leads to a category that is not managed yet and has no storage channels. */
  ghost predicate OpensWell(f: Filling)
    requires |f.cats| > 0
  {
    Free(f.cats) == 0 && Found(f).Some? ==>
      !Manages(f.cats, Found(f).value) && CountIn(f.guild.channels, Found(f).value) == 0
  }

  ghost predicate AllOpenWell(f: Filling, n: nat)
    requires |f.cats| > 0
  {
    forall k :: 0 <= k < n ==> OpensWell(Fill(f, k))
  }

  /** The bookkeeping and the server agree. */
  ghost predicate Agrees(f: Filling) {
    |f.cats| > 0 && Fits(f.guild) && Counts(f.guild, f.cats)
  }

  lemma ShelveAgrees(f: Filling, i: nat)
    requires Agrees(f) && i < |f.cats|
    ensures Agrees(Shelve(f, i))
  {
    var r := Shelve(f, i);
    var c := Channel(f.guild.next, TextChannel, "storage", Some(f.cats[i].id));
    CreateFits(f.guild, TextChannel, "storage", Some(f.cats[i].id));
    forall j | 0 <= j < |r.cats|
      ensures r.cats[j].id < r.guild.next && r.cats[j].count == CountIn(r.guild.channels, r.cats[j].id) {
      CountSnoc(f.guild.channels, c, f.cats[j].id);
    }
    hide Fits, CountIn;
  }

  lemma {:induction false} FoundIsThere(channels: seq<Channel>, name: string)
    ensures FindCategory(channels, name).Some? ==>
              exists i :: 0 <= i < |channels| && channels[i].id == FindCategory(channels, name).value
  {
    if channels != [] && !(channels[0].kind == Category && EqualFold(channels[0].name, name)) {
      FoundIsThere(channels[1..], name);
      if FindCategory(channels[1..], name).Some? {
        var i :| 0 <= i < |channels| - 1 && channels[1..][i].id == FindCategory(channels[1..], name).value;
        assert channels[i + 1] == channels[1..][i];
      }
    }
  }

  /** What opening does, whatever the name. */
  lemma OpenIs(f: Filling)
    requires |f.cats| > 0 && Fits(f.guild)
    ensures var r := Open(f); var name := OverflowName(f.cats[0].name, Increment(f.order));
            var id := if Found(f).Some? then Found(f).value else f.guild.next;
            && r.cats == f.cats + [Managed(id, name, Increment(f.order), 0)] && id < r.guild.next
            && r.guild == (if Found(f).Some? then f.guild else Create(f.guild, Category, CutName(name), None))
            && r.made == f.made && Fits(r.guild)
  {
    var name := CutName(OverflowName(f.cats[0].name, Increment(f.order)));
    FoundIsThere(f.guild.channels, name);
    CreateFits(f.guild, Category, name, None);
  }

  lemma OpenAgrees(f: Filling)
    requires Agrees(f) && Free(f.cats) == 0 && OpensWell(f)
    ensures Agrees(Open(f))
  {
    OpenIs(f);
    var name, order := OverflowName(f.cats[0].name, Increment(f.order)), Increment(f.order);
    if Found(f).None? {
      hide Found, Fits, CountIn, OverflowName, CutName;
      NewCounts(f.guild, f.cats, CutName(name), name, order);
    } else {
      assert forall i :: 0 <= i < |f.cats| ==> f.cats[i].id != Found(f).value;
      hide Found, Fits, CountIn, OverflowName, CutName;
    }
  }

  lemma PlaceAgrees(f: Filling)
    requires Agrees(f) && OpensWell(f)
    ensures Agrees(PlaceOne(f))
  {
    hide Agrees, OpensWell, Open, Shelve, Free;
    AgreesHasCats(f);
    NoneFree(f.cats);
    var i := FirstFree(f.cats);
    if i == |f.cats| {
      OpenAgrees(f);
      OpenSize(f);
      ShelveAgrees(Open(f), i);
    } else {
      ShelveAgrees(f, i);
    }
  }

  lemma AgreesHasCats(f: Filling)
    requires Agrees(f)
    ensures |f.cats| > 0
  {
  }

  lemma OpenSize(f: Filling)
    requires |f.cats| > 0
    ensures |Open(f).cats| == |f.cats| + 1
  {
  }

  lemma {:induction false} FillAgrees(f: Filling, n: nat)
    requires Agrees(f) && AllOpenWell(f, n)
    ensures Agrees(Fill(f, n))
  {
    AgreesHasCats(f);
    hide Agrees, OpensWell, PlaceOne;
    if n > 0 {
      FillAgrees(f, n - 1);
      assert OpensWell(Fill(f, n - 1));
      PlaceAgrees(Fill(f, n - 1));
    }
  }

  /** When every opening goes well, no storage category of the server passes 40, or what it
      had before. */
  lemma NoneOverfilledOnServer(f: Filling, n: nat, i: nat)
    requires Agrees(f) && AllOpenWell(f, n) && i < |Fill(f, n).cats|
    ensures var r := Fill(f, n); var id := r.cats[i].id;
            CountIn(r.guild.channels, id)
            <= if i < |f.cats| then Max(MAX_PER_CATEGORY, CountIn(f.guild.channels, id)) else MAX_PER_CATEGORY
  {
    AgreesHasCats(f);
    hide Fill, Agrees, AllOpenWell, CountIn, Grows;
    var r := Fill(f, n);
    FillAgrees(f, n);
    NoneOverfilled(f, n);
    GrowsAt(f, r, i);
    AgreesAt(r, i);
    if i < |f.cats| {
      AgreesAt(f, i);
    }
  }

  lemma AgreesAt(f: Filling, i: nat)
    requires Agrees(f) && i < |f.cats|
    ensures f.cats[i].count == CountIn(f.guild.channels, f.cats[i].id)
  {
  }

  lemma GoodNameOpensWell(f: Filling)
    requires Tracks(f) && (Free(f.cats) == 0 ==> f.order < MAX_INT64 && GoodName(f.cats[0].name, f.order + 1))
    ensures OpensWell(f)
  {
    if Free(f.cats) == 0 {
      OpensNew(f);
      OpenIs(f);
      SameChannels(f);
    }
  }

  lemma SameChannels(f: Filling)
    requires |f.cats| > 0 && Open(f).guild != f.guild && Fits(f.guild)
    ensures Found(f).None?
  {
  }

  /** Good names are one way for every opening to go well. */
  lemma GoodNamesOpenWell(f: Filling, n: nat)
    requires Tracks(f) && GoodNames(f, n)
    ensures |f.cats| > 0 && AllOpenWell(f, n)
  {
    hide *;
    TracksHasCats(f);
    if !AllOpenWell(f, n) {
      var k := FirstBad(f, n);
      GoodNamesUpTo(f, k + 1, n);
      NextNameGoodAt(f, k);
      GoodNameOpensWell(Fill(f, k));
    }
  }

  lemma GoodNamesUpTo(f: Filling, k: nat, n: nat)
    requires |f.cats| > 0 && k <= n && GoodNames(f, n)
    ensures GoodNames(f, k)
  {
    assert Needed(k, Free(f.cats)) <= Needed(n, Free(f.cats));
  }

  lemma NextNameGoodAt(f: Filling, k: nat)
    requires |f.cats| > 0 && Tracks(f) && GoodNames(f, k + 1)
    ensures var r := Fill(f, k);
            Tracks(r) && (Free(r.cats) == 0 ==> r.order < MAX_INT64 && GoodName(r.cats[0].name, r.order + 1))
  {
    hide *;
    FewerGoodNames(f, k + 1);
    FillTracks(f, k);
    NextNameGood(f, k + 1);
    FollowsIs(f, Fill(f, k));
  }

  lemma FollowsIs(f: Filling, r: Filling)
    requires Follows(f, r)
    ensures Tracks(r) && |r.cats| > 0 && r.cats[0].name == f.cats[0].name
  {
  }

  /** The first opening that does not go well. */
  lemma {:induction false} FirstBad(f: Filling, n: nat) returns (k: nat)
    requires |f.cats| > 0 && !AllOpenWell(f, n)
    ensures k < n && AllOpenWell(f, k) && !OpensWell(Fill(f, k))
  {
    hide Fill, OpensWell;
    if AllOpenWell(f, n - 1) {
      k := n - 1;
    } else {
      k := FirstBad(f, n - 1);
    }
  }

  // ----- what is on the server after any filling -----

  lemma {:induction false} CountPrefix(a: seq<Channel>, b: seq<Channel>, id: nat)
    requires a <= b
    ensures CountIn(a, id) <= CountIn(b, id)
  {
    if |a| < |b| {
      CountPrefix(a, b[..|b| - 1], id);
    } else {
      assert a == b;
    }
  }

  /** Channels are only added, and storage channels only to managed categories. */
  ghost predicate Adds(f: Filling, r: Filling) {
    && f.guild.channels <= r.guild.channels
    && (forall id :: Manages(f.cats, id) ==> Manages(r.cats, id))
    && (forall id :: !Manages(r.cats, id) ==> CountIn(r.guild.channels, id) == CountIn(f.guild.channels, id))
  }

  lemma AddsOn(f: Filling, r: Filling, t: Filling)
    requires Adds(f, r) && Adds(r, t)
    ensures Adds(f, t)
  {
    hide Manages, CountIn;
  }

  lemma ShelveAdds(f: Filling, i: nat)
    requires i < |f.cats|
    ensures Adds(f, Shelve(f, i))
  {
    var r := Shelve(f, i);
    var c := Channel(f.guild.next, TextChannel, "storage", Some(f.cats[i].id));
    forall id | Manages(f.cats, id) ensures Manages(r.cats, id) {
      var j :| 0 <= j < |f.cats| && f.cats[j].id == id;
      assert r.cats[j].id == id;
    }
    forall id | !Manages(r.cats, id) ensures CountIn(r.guild.channels, id) == CountIn(f.guild.channels, id) {
      assert r.cats[i].id != id;
      CountSnoc(f.guild.channels, c, id);
    }
  }

  lemma OpenAdds(f: Filling)
    requires |f.cats| > 0 && Fits(f.guild)
    ensures Adds(f, Open(f))
  {
    OpenIs(f);
    var r := Open(f);
    forall id | Manages(f.cats, id) ensures Manages(r.cats, id) {
      var j :| 0 <= j < |f.cats| && f.cats[j].id == id;
      assert r.cats[j].id == id;
    }
    forall id: nat ensures CountIn(r.guild.channels, id) == CountIn(f.guild.channels, id) {
      CountSnoc(f.guild.channels,
                Channel(f.guild.next, Category, CutName(OverflowName(f.cats[0].name, Increment(f.order))), None), id);
    }
  }

  /** Managed categories are on the server, whatever was opened. */
  ghost predicate Stands(f: Filling) {
    |f.cats| > 0 && Fits(f.guild) && forall i :: 0 <= i < |f.cats| ==> f.cats[i].id < f.guild.next
  }

  lemma ShelveStands(f: Filling, i: nat)
    requires Stands(f) && i < |f.cats|
    ensures Stands(Shelve(f, i))
  {
    CreateFits(f.guild, TextChannel, "storage", Some(f.cats[i].id));
    hide Fits;
  }

  lemma OpenStands(f: Filling)
    requires Stands(f)
    ensures Stands(Open(f)) && Adds(f, Open(f))
  {
    OpenIs(f);
    OpenAdds(f);
    hide Fits, Found, Adds;
  }

  lemma PlaceStands(f: Filling)
    requires Stands(f)
    ensures Stands(PlaceOne(f)) && Adds(f, PlaceOne(f))
  {
    assert |f.cats| > 0;
    var i := FirstFree(f.cats);
    hide Stands, Adds, FirstFree, Open, Shelve;
    if i == |f.cats| {
      OpenStands(f);
      OpenSize(f);
      ShelveStands(Open(f), i);
      ShelveAdds(Open(f), i);
      AddsOn(f, Open(f), PlaceOne(f));
    } else {
      ShelveStands(f, i);
      ShelveAdds(f, i);
    }
  }

  /** A later filling of the same server. */
  ghost predicate Further(f: Filling, r: Filling) {
    Stands(r) && Adds(f, r) && Grows(f, r)
  }

  lemma FurtherItself(f: Filling)
    requires Stands(f)
    ensures |f.cats| > 0 && Further(f, f)
  {
  }

  lemma FurtherOn(f: Filling, r: Filling)
    requires Further(f, r)
    ensures |r.cats| > 0 && Further(f, PlaceOne(r))
  {
    assert |r.cats| > 0;
    hide Stands, Adds, Grows, PlaceOne;
    PlaceStands(r);
    AddsOn(f, r, PlaceOne(r));
    GrowsOn(f, r);
  }

  lemma {:induction false} FillStands(f: Filling, n: nat)
    requires |f.cats| > 0 && Stands(f)
    ensures Stands(Fill(f, n))
  {
    hide Stands, PlaceOne, Adds;
    if n > 0 {
      FillStands(f, n - 1);
      PlaceStands(Fill(f, n - 1));
    }
  }

  lemma {:induction false} FillFurther(f: Filling, k: nat, m: nat)
    requires |f.cats| > 0 && Stands(f)
    ensures Further(Fill(f, k), Fill(f, k + m))
  {
    hide Further, Stands, PlaceOne;
    if m == 0 {
      FillStands(f, k);
      FurtherItself(Fill(f, k));
    } else {
      FillFurther(f, k, m - 1);
      FurtherOn(Fill(f, k), Fill(f, k + m - 1));
    }
  }

  lemma FurtherStands(f: Filling, r: Filling)
    requires Further(f, r)
    ensures Stands(r) && Adds(f, r) && Grows(f, r)
  {
  }

  /** The id of the category that opening leads to. */
  function OpenedId(f: Filling): nat
    requires |f.cats| > 0
  {
    if Found(f).Some? then Found(f).value else f.guild.next
  }

  lemma OpenedCats(f: Filling)
    requires |f.cats| > 0 && Fits(f.guild) && Free(f.cats) == 0 && 1 <= f.order < MAX_INT64
    ensures var r := PlaceOne(f);
            && |r.cats| == |f.cats| + 1
            && r.cats[|f.cats|] == Managed(OpenedId(f), OverflowName(f.cats[0].name, f.order + 1), f.order + 1, 1)
  {
    NoneFree(f.cats);
    OpenIs(f);
    hide Fits, Found, OverflowName, CutName, Open, Free, FirstFree;
  }

  lemma OpenedCounts(f: Filling)
    requires |f.cats| > 0 && Fits(f.guild) && Free(f.cats) == 0
    ensures CountIn(PlaceOne(f).guild.channels, OpenedId(f)) == CountIn(f.guild.channels, OpenedId(f)) + 1
  {
    NoneFree(f.cats);
    OpenIs(f);
    var o, id := Open(f), OpenedId(f);
    hide Fits, CountIn, Found, OverflowName, CutName, Open, Free, FirstFree;
    var name := OverflowName(f.cats[0].name, Increment(f.order));
    CountSnoc(f.guild.channels, Channel(f.guild.next, Category, CutName(name), None), id);
    CountSnoc(o.guild.channels, Channel(o.guild.next, TextChannel, "storage", Some(id)), id);
  }

  lemma NewIsEmpty(f: Filling)
    requires |f.cats| > 0 && Fits(f.guild) && Found(f).None?
    ensures CountIn(f.guild.channels, OpenedId(f)) == 0
  {
    CountNone(f.guild, |f.guild.channels|);
    assert f.guild.channels[..|f.guild.channels|] == f.guild.channels;
  }

  /** The category a full pool opens, whatever its name: the count kept for it is 1, and the
      server holds one channel more in it than before, so the two agree exactly when it was
      empty. Under its name on the server it reads back as its number exactly when the name
      was good. */
  lemma OpeningIs(f: Filling)
    requires |f.cats| > 0 && Fits(f.guild) && Free(f.cats) == 0 && 1 <= f.order < MAX_INT64
    ensures var base, order, id, r := f.cats[0].name, f.order + 1, OpenedId(f), PlaceOne(f);
            && |r.cats| == |f.cats| + 1 && r.cats[|f.cats|] == Managed(id, OverflowName(base, order), order, 1)
            && CountIn(r.guild.channels, id) == CountIn(f.guild.channels, id) + 1
            && (Found(f).None? ==> CountIn(f.guild.channels, id) == 0)
            && (OverflowIndex(base, CutName(OverflowName(base, order))) == order <==> GoodName(base, order))
  {
    hide *;
    OpenedCats(f);
    OpenedCounts(f);
    if Found(f).None? {
      NewIsEmpty(f);
    }
    CutNameReadsBack(f.cats[0].name, f.order + 1);
  }

  /** A base name of exactly 90 bytes: the cut turns every overflow name back into the base
      name, the full base category is found under it, and gets a 41st channel. */
  lemma LongBaseOverfills(f: Filling)
    requires Tracks(f) && Free(f.cats) == 0
    requires var base := f.cats[0];
             |base.name| == MAX_NAME && TrimSpace(base.name) == base.name
             && FindCategory(f.guild.channels, base.name) == Some(base.id)
    ensures var r := PlaceOne(f); CountIn(r.guild.channels, f.cats[0].id) == f.cats[0].count + 1 > MAX_PER_CATEGORY
  {
    var base := f.cats[0];
    NoneFree(f.cats);
    CutIsBase(base.name, Increment(f.order));
    assert Open(f).guild == f.guild && Open(f).cats[|f.cats|].id == base.id;
    hide FindCategory, CutName, OverflowName, TrimSpace, Tracks, Free;
    CountSnoc(f.guild.channels, Channel(f.guild.next, TextChannel, "storage", Some(base.id)), base.id);
  }
}
