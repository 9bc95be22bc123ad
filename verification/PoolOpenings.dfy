/** Which categories a sync opens, told from where it starts: the names it will ask for, one
    after the other, and where each of them leads on the server. */
module PoolOpenings {
  import opened Wrappers
  import opened PoolNames
  import opened Pool

  /** The number after i openings. */
  function OrderAt(order: int, i: nat): int {
    if i == 0 then order else Increment(OrderAt(order, i - 1))
  }

  /** The name that opening i asks the server for. */
  function NthName(f: Filling, i: nat): string
    requires |f.cats| > 0
  {
    CutName(OverflowName(f.cats[0].name, OrderAt(f.order, i + 1)))
  }

  /** No category on the server has the name, or the first that does is not managed and holds
      no storage channel. */
  ghost predicate Vacant(f: Filling, name: string) {
    var found := FindCategory(f.guild.channels, name);
    found.Some? ==> !Manages(f.cats, found.value) && CountIn(f.guild.channels, found.value) == 0
  }

  ghost predicate ClearAt(f: Filling, i: nat)
    requires |f.cats| > 0
  {
    Vacant(f, NthName(f, i)) && forall j :: 0 <= j < i ==> !EqualFold(NthName(f, j), NthName(f, i))
  }

  /** The names of the first m openings are vacant, and no two are the same up to case. */
  ghost predicate AllClear(f: Filling, m: nat)
    requires |f.cats| > 0
  {
    forall i :: 0 <= i < m ==> ClearAt(f, i)
  }

  // ----- where names lead while a sync goes on -----

  lemma {:induction false} FoldSame(channels: seq<Channel>, a: string, b: string)
    requires EqualFold(a, b)
    ensures FindCategory(channels, a) == FindCategory(channels, b)
  {
    if channels != [] {
      FoldSame(channels[1..], a, b);
    }
  }

  lemma {:induction false} FindSnoc(channels: seq<Channel>, c: Channel, name: string)
    ensures FindCategory(channels + [c], name)
         == if FindCategory(channels, name).Some? then FindCategory(channels, name)
            else if c.kind == Category && EqualFold(c.name, name) then Some(c.id) else None
  {
    hide EqualFold;
    if channels == [] {
      assert channels + [c] == [c];
    } else {
      assert (channels + [c])[1..] == channels[1..] + [c];
      FindSnoc(channels[1..], c, name);
    }
  }

  lemma {:induction false} FindHas(channels: seq<Channel>, name: string)
    ensures FindCategory(channels, name).Some? ==>
              exists i :: 0 <= i < |channels| && channels[i].id == FindCategory(channels, name).value
                          && EqualFold(channels[i].name, name)
  {
    hide EqualFold;
    if channels != [] && !(channels[0].kind == Category && EqualFold(channels[0].name, name)) {
      FindHas(channels[1..], name);
      if FindCategory(channels[1..], name).Some? {
        var i :| 0 <= i < |channels| - 1 && channels[1..][i].id == FindCategory(channels[1..], name).value
          && EqualFold(channels[1..][i].name, name);
        assert channels[i + 1] == channels[1..][i];
      }
    }
  }

  /** Two names that lead to one category are the same up to case. */
  lemma OneCategory(g: Guild, a: string, b: string)
    requires Fits(g) && FindCategory(g.channels, a).Some?
    requires FindCategory(g.channels, a) == FindCategory(g.channels, b)
    ensures EqualFold(a, b)
  {
    FindHas(g.channels, a);
    FindHas(g.channels, b);
    var id := FindCategory(g.channels, a).value;
    var i :| 0 <= i < |g.channels| && g.channels[i].id == id && EqualFold(g.channels[i].name, a);
    var k :| 0 <= k < |g.channels| && g.channels[k].id == id && EqualFold(g.channels[k].name, b);
    assert i == k;
  }

  /** A name leads where it led at the start, or else to what was opened under it. */
  ghost predicate LeadsAsBefore(start: Filling, f: Filling, i: nat, name: string)
    requires |start.cats| > 0
  {
    var before, now := FindCategory(start.guild.channels, name), FindCategory(f.guild.channels, name);
    if before.Some? then now == before else (now.Some? <==> Asked(start, i, name))
  }

  ghost predicate Asked(start: Filling, i: nat, name: string)
    requires |start.cats| > 0
  {
    exists j :: 0 <= j < i && EqualFold(NthName(start, j), name)
  }

  /** The j-th category opened is where the j-th name leads. */
  ghost predicate Owns(start: Filling, f: Filling, j: nat)
    requires |start.cats| > 0
  {
    && |start.cats| + j < |f.cats|
    && FindCategory(f.guild.channels, NthName(start, j)) == Some(f.cats[|start.cats| + j].id)
  }

  ghost predicate SameOld(start: Filling, f: Filling) {
    |start.cats| <= |f.cats| && forall k :: 0 <= k < |start.cats| ==> f.cats[k].id == start.cats[k].id
  }

  /** A filling after i openings. */
  ghost predicate Opened(start: Filling, f: Filling, i: nat) {
    && |start.cats| > 0 && |f.cats| == |start.cats| + i && f.cats[0].name == start.cats[0].name
    && f.order == OrderAt(start.order, i) && SameOld(start, f)
    && (forall name :: LeadsAsBefore(start, f, i, name))
    && (forall j :: 0 <= j < i ==> Owns(start, f, j))
  }

  lemma NoneOpened(start: Filling)
    requires |start.cats| > 0
    ensures Opened(start, start, 0)
  {
    hide FindCategory, NthName;
  }

  lemma ShelveFinds(f: Filling, t: nat, name: string)
    requires t < |f.cats|
    ensures FindCategory(Shelve(f, t).guild.channels, name) == FindCategory(f.guild.channels, name)
  {
    FindSnoc(f.guild.channels, Channel(f.guild.next, TextChannel, "storage", Some(f.cats[t].id)), name);
  }

  lemma ShelveOpened(start: Filling, f: Filling, i: nat, t: nat)
    requires Opened(start, f, i) && t < |f.cats|
    ensures Opened(start, Shelve(f, t), i)
  {
    var r := Shelve(f, t);
    assert |r.cats| == |f.cats| && r.order == f.order && forall k :: 0 <= k < |r.cats| ==> r.cats[k].id == f.cats[k].id;
    assert r.cats[0].name == f.cats[0].name;
    hide FindCategory, NthName, Shelve, EqualFold;
    forall name ensures LeadsAsBefore(start, r, i, name) {
      ShelveFinds(f, t, name);
      assert LeadsAsBefore(start, f, i, name);
    }
    forall j | 0 <= j < i ensures Owns(start, r, j) {
      ShelveFinds(f, t, NthName(start, j));
      assert Owns(start, f, j);
    }
  }

  lemma OpenName(start: Filling, f: Filling, i: nat)
    requires Opened(start, f, i)
    ensures NthName(start, i) == CutName(OverflowName(f.cats[0].name, Increment(f.order)))
    ensures Found(f) == FindCategory(f.guild.channels, NthName(start, i))
  {
    hide FindCategory, CutName, OverflowName, Increment, EqualFold;
  }

  /** What one opening does to where names lead. */
  lemma OpenFinds(start: Filling, f: Filling, i: nat, name: string)
    requires Opened(start, f, i) && Fits(f.guild)
    ensures var now, asked := FindCategory(f.guild.channels, name), NthName(start, i);
            FindCategory(Open(f).guild.channels, name)
            == if now.Some? then now else if EqualFold(asked, name) then Some(OpenedId(f)) else None
  {
    var asked := NthName(start, i);
    OpenName(start, f, i);
    OpenIs(f);
    if EqualFold(asked, name) {
      FoldSame(f.guild.channels, asked, name);
    }
    FindSnoc(f.guild.channels, Channel(f.guild.next, Category, asked, None), name);
    hide FindCategory, CutName, OverflowName, EqualFold, Opened, Fits, NthName, Open;
  }

  lemma OpenLeads(start: Filling, f: Filling, i: nat, name: string)
    requires Opened(start, f, i) && Fits(f.guild)
    ensures LeadsAsBefore(start, Open(f), i + 1, name)
  {
    OpenFinds(start, f, i, name);
    assert LeadsAsBefore(start, f, i, name);
    AskedNext(start, i, name);
    if FindCategory(f.guild.channels, name).None? {
      AskedLeads(start, f, i, name);
    }
    hide Opened, FindCategory, Open, NthName, EqualFold, Asked, Fits;
  }

  lemma AskedNext(start: Filling, i: nat, name: string)
    requires |start.cats| > 0
    ensures Asked(start, i + 1, name) <==> Asked(start, i, name) || EqualFold(NthName(start, i), name)
  {
    hide NthName, EqualFold;
  }

  lemma AskedLeads(start: Filling, f: Filling, i: nat, name: string)
    requires |start.cats| > 0 && LeadsAsBefore(start, f, i, name) && FindCategory(f.guild.channels, name).None?
    ensures !Asked(start, i, name)
  {
  }

  /** Opening adds one category, under the name's number, and leaves the others. */
  lemma OpenAddsOne(f: Filling)
    requires |f.cats| > 0 && Fits(f.guild)
    ensures var r := Open(f);
            |r.cats| == |f.cats| + 1 && r.cats[..|f.cats|] == f.cats && r.cats[|f.cats|].id == OpenedId(f)
            && r.order == Increment(f.order) && forall k :: 0 <= k < |f.cats| ==> r.cats[k] == f.cats[k]
  {
    OpenIs(f);
    hide Fits, CutName, OverflowName, FindCategory;
  }

  lemma OpenOpened(start: Filling, f: Filling, i: nat)
    requires Opened(start, f, i) && Fits(f.guild)
    ensures Opened(start, Open(f), i + 1)
  {
    var r := Open(f);
    OpenAddsOne(f);
    hide FindCategory, NthName, Open, EqualFold, Fits, LeadsAsBefore, OpenedId, Owns;
    var next := i + 1;
    forall name ensures LeadsAsBefore(start, r, next, name) {
      OpenLeads(start, f, i, name);
    }
    forall j | 0 <= j < next ensures Owns(start, r, j) {
      OpenOwns(start, f, i, j);
    }
  }

  lemma StillOwns(start: Filling, f: Filling, r: Filling, j: nat)
    requires |start.cats| > 0 && Owns(start, f, j)
    requires |f.cats| <= |r.cats| && forall k :: 0 <= k < |f.cats| ==> r.cats[k] == f.cats[k]
    requires FindCategory(r.guild.channels, NthName(start, j)) == FindCategory(f.guild.channels, NthName(start, j))
    ensures Owns(start, r, j)
  {
    hide FindCategory, NthName;
  }

  lemma OwnsLast(start: Filling, r: Filling, i: nat, id: nat)
    requires |start.cats| > 0 && |r.cats| == |start.cats| + i + 1 && r.cats[|start.cats| + i].id == id
    requires FindCategory(r.guild.channels, NthName(start, i)) == Some(id)
    ensures Owns(start, r, i)
  {
    hide FindCategory, NthName;
  }

  lemma OpenedSize(start: Filling, f: Filling, i: nat)
    requires Opened(start, f, i)
    ensures |start.cats| > 0 && |f.cats| == |start.cats| + i && forall j :: 0 <= j < i ==> Owns(start, f, j)
  {
    hide Owns, LeadsAsBefore;
  }

  lemma OwnsLeads(start: Filling, f: Filling, j: nat)
    requires |start.cats| > 0 && Owns(start, f, j)
    ensures FindCategory(f.guild.channels, NthName(start, j)).Some?
  {
    hide FindCategory, NthName;
  }

  /** The last name asked for leads to what was opened under it. */
  lemma OpenLeadsTo(start: Filling, f: Filling, i: nat)
    requires Opened(start, f, i) && Fits(f.guild) && |f.cats| > 0
    ensures FindCategory(Open(f).guild.channels, NthName(start, i)) == Some(OpenedId(f))
  {
    OpenName(start, f, i);
    OpenFinds(start, f, i, NthName(start, i));
    FoldItself(NthName(start, i));
    hide FindCategory, NthName, Open, Fits, EqualFold, Opened;
  }

  lemma FoldItself(s: string)
    ensures EqualFold(s, s)
  {
  }

  lemma OpenOwns(start: Filling, f: Filling, i: nat, j: nat)
    requires Opened(start, f, i) && Fits(f.guild) && j <= i
    ensures Owns(start, Open(f), j)
  {
    hide *;
    OpenedSize(start, f, i);
    OpenAddsOne(f);
    if j < i {
      OwnsLeads(start, f, j);
      OpenFinds(start, f, i, NthName(start, j));
      StillOwns(start, f, Open(f), j);
    } else {
      OpenLeadsTo(start, f, i);
      OwnsLast(start, Open(f), i, OpenedId(f));
    }
  }

  lemma PlaceOpened(start: Filling, f: Filling, i: nat)
    requires Opened(start, f, i) && Fits(f.guild)
    ensures |f.cats| > 0 && Opened(start, PlaceOne(f), if Free(f.cats) == 0 then i + 1 else i)
  {
    assert |f.cats| > 0;
    NoneFree(f.cats);
    var t := FirstFree(f.cats);
    hide Opened, Open, Shelve, Fits, Free, FirstFree;
    if t == |f.cats| {
      OpenOpened(start, f, i);
      OpenSize(f);
      ShelveOpened(start, Open(f), i + 1, t);
    } else {
      ShelveOpened(start, f, i, t);
    }
  }

  lemma {:induction false} FillOpened(start: Filling, n: nat)
    requires |start.cats| > 0 && Stands(start)
    ensures Opened(start, Fill(start, n), |Fill(start, n).cats| - |start.cats|)
  {
    hide Opened, Stands, PlaceOne;
    if n == 0 {
      NoneOpened(start);
    } else {
      var f := Fill(start, n - 1);
      FillOpened(start, n - 1);
      FillStands(start, n - 1);
      StandsFits(f);
      OneMore(f);
      hide Free;
      PlaceOpened(start, f, |f.cats| - |start.cats|);
    }
  }

  lemma StandsFits(f: Filling)
    requires Stands(f)
    ensures |f.cats| > 0 && Fits(f.guild)
  {
  }

  // ----- the condition over the start -----

  lemma ManagedSince(start: Filling, f: Filling, i: nat, id: nat)
    requires Opened(start, f, i) && Manages(f.cats, id)
    ensures Manages(start.cats, id)
         || exists j :: 0 <= j < i && FindCategory(f.guild.channels, NthName(start, j)) == Some(id)
  {
    var k :| 0 <= k < |f.cats| && f.cats[k].id == id;
    if k < |start.cats| {
      assert start.cats[k].id == id;
    } else {
      assert Owns(start, f, k - |start.cats|);
    }
    hide FindCategory, NthName, LeadsAsBefore;
  }

  lemma OwnedIsManaged(start: Filling, f: Filling, i: nat, j: nat)
    requires Opened(start, f, i) && j < i
    ensures FindCategory(f.guild.channels, NthName(start, j)).Some?
    ensures Manages(f.cats, FindCategory(f.guild.channels, NthName(start, j)).value)
  {
    assert Owns(start, f, j);
    assert f.cats[|start.cats| + j].id == FindCategory(f.guild.channels, NthName(start, j)).value;
    hide FindCategory, NthName, LeadsAsBefore;
  }

  lemma ClearOpensWell(start: Filling, f: Filling, i: nat)
    requires Opened(start, f, i) && Fits(f.guild) && Adds(start, f) && ClearAt(start, i)
    ensures OpensWell(f)
  {
    var name := NthName(start, i);
    OpenName(start, f, i);
    assert LeadsAsBefore(start, f, i, name);
    hide FindCategory, NthName, EqualFold, Free, Fits;
    if Found(f).Some? {
      var id := Found(f).value;
      assert FindCategory(start.guild.channels, name) == Some(id);
      if Manages(f.cats, id) {
        ManagedSince(start, f, i, id);
        var j :| 0 <= j < i && FindCategory(f.guild.channels, NthName(start, j)) == Some(id);
        OneCategory(f.guild, NthName(start, j), name);
      }
    }
  }

  lemma WellIsClear(start: Filling, f: Filling, i: nat)
    requires Opened(start, f, i) && Adds(start, f) && Free(f.cats) == 0 && OpensWell(f)
    ensures ClearAt(start, i)
  {
    var name := NthName(start, i);
    OpenName(start, f, i);
    assert LeadsAsBefore(start, f, i, name);
    hide FindCategory, NthName, EqualFold, Free;
    forall j | 0 <= j < i ensures !EqualFold(NthName(start, j), name) {
      if EqualFold(NthName(start, j), name) {
        OwnedIsManaged(start, f, i, j);
        FoldSame(f.guild.channels, NthName(start, j), name);
      }
    }
  }

  lemma ClearNext(start: Filling, i: nat)
    requires |start.cats| > 0
    ensures AllClear(start, i + 1) <==> AllClear(start, i) && ClearAt(start, i)
  {
    hide ClearAt;
  }

  lemma WellNext(start: Filling, n: nat)
    requires |start.cats| > 0
    ensures AllOpenWell(start, n + 1) <==> AllOpenWell(start, n) && OpensWell(Fill(start, n))
  {
    hide OpensWell, Fill;
  }

  lemma WellWithRoom(f: Filling)
    requires |f.cats| > 0 && Free(f.cats) > 0
    ensures OpensWell(f)
  {
    hide Free;
  }

  /** The number of categories opened before place n. */
  function Opens(start: Filling, n: nat): nat
    requires |start.cats| > 0
  {
    |Fill(start, n).cats| - |start.cats|
  }

  lemma OpensNext(start: Filling, n: nat)
    requires |start.cats| > 0
    ensures |Fill(start, n).cats| > 0
    ensures Opens(start, n + 1) == Opens(start, n) + if Free(Fill(start, n).cats) == 0 then 1 else 0
  {
    OneMore(Fill(start, n));
    hide Free, PlaceOne;
  }

  lemma OpensIs(start: Filling, n: nat)
    requires |start.cats| > 0
    ensures Opens(start, n) == |Fill(start, n).cats| - |start.cats|
  {
    hide Fill;
  }

  lemma WellAndClear(start: Filling, n: nat)
    requires |start.cats| > 0 && Stands(start)
    requires AllOpenWell(start, n) <==> AllClear(start, Opens(start, n))
    ensures AllOpenWell(start, n + 1) <==> AllClear(start, Opens(start, n + 1))
  {
    hide *;
    WellNext(start, n);
    OpensNext(start, n);
    if Free(Fill(start, n).cats) == 0 {
      ClearNext(start, Opens(start, n));
      OpensIs(start, n);
      WellHere(start, n);
    } else {
      WellWithRoom(Fill(start, n));
    }
  }

  /** Every opening goes well exactly when the names that will be asked for are vacant at the
      start and differ. */
  lemma {:induction false} WellExactlyWhenClear(start: Filling, n: nat)
    requires |start.cats| > 0 && Stands(start)
    ensures AllOpenWell(start, n) <==> AllClear(start, |Fill(start, n).cats| - |start.cats|)
  {
    hide *;
    OpensIs(start, n);
    if n == 0 {
      FillNone(start);
      NothingOpens(start);
    } else {
      WellExactlyWhenClear(start, n - 1);
      OpensIs(start, n - 1);
      WellAndClear(start, n - 1);
    }
  }

  lemma NothingOpens(start: Filling)
    requires |start.cats| > 0
    ensures AllOpenWell(start, 0) && AllClear(start, 0)
  {
  }

  lemma WellHere(start: Filling, n: nat)
    requires |start.cats| > 0 && Stands(start) && Free(Fill(start, n).cats) == 0
    ensures OpensWell(Fill(start, n)) <==> ClearAt(start, |Fill(start, n).cats| - |start.cats|)
  {
    hide *;
    var f := Fill(start, n);
    var i := |f.cats| - |start.cats|;
    FillOpened(start, n);
    FillStands(start, n);
    StandsFits(f);
    FillFurther(start, 0, n);
    FillNone(start);
    FurtherStands(Fill(start, 0), f);
    if ClearAt(start, i) {
      ClearOpensWell(start, f, i);
    } else if OpensWell(f) {
      WellIsClear(start, f, i);
    }
  }

  lemma FillNone(start: Filling)
    requires |start.cats| > 0
    ensures Fill(start, 0) == start
  {
  }
}
