/** How well a file is stored: the per-file summary, the batched one the listing uses in its
    place, and the per-part breakdown. */
module Health {
  import opened Wrappers
  import opened Collections
  import opened Sorting

  datatype Row = Row(file: string, index: nat, size: nat, guild: string, completed: bool)

  datatype Status = Empty | Partial | Whole

  datatype Summary = Summary(attachments: nat, parts: nat, servers: nat, status: Status)

  /** What both summaries gather of a file's rows. */
  datatype Tally = Tally(parts: set<nat>, stored: set<nat>, attachments: nat, guilds: set<string>)

  const NOTHING := Tally({}, {}, 0, {})

  function Add(t: Tally, r: Row): Tally {
    Tally(t.parts + {r.index},
          if r.completed then t.stored + {r.index} else t.stored,
          if r.completed then t.attachments + 1 else t.attachments,
          if r.completed && r.guild != "" then t.guilds + {r.guild} else t.guilds)
  }

  function TallyOf(rows: seq<Row>): Tally {
    if rows == [] then NOTHING else Add(TallyOf(rows[..|rows| - 1]), rows[|rows| - 1])
  }

  function Summarize(t: Tally): Summary {
    Summary(t.attachments, |t.parts|, |t.guilds|,
            if t.stored == {} then Empty else if |t.stored| < |t.parts| then Partial else Whole)
  }

  function OfFile(table: seq<Row>, id: string): seq<Row> {
    if table == [] then []
    else
      var before, last := OfFile(table[..|table| - 1], id), table[|table| - 1];
      if last.file == id then before + [last] else before
  }

  /** fileHealth; a query that fails reads as no rows. */
  method FileHealth(chunks: Option<seq<Row>>) returns (h: Summary)
    ensures h == Summarize(TallyOf(if chunks.Some? then chunks.value else []))
  {
    if chunks.None? || chunks.value == [] {
      return Summary(0, 0, 0, Empty);
    }
    var rows := chunks.value;
    var attachments := 0;
    var parts: set<nat>, stored: set<nat>, guilds: set<string> := {}, {}, {};
    for k := 0 to |rows|
      invariant Tally(parts, stored, attachments, guilds) == TallyOf(rows[..k])
    {
      TallyNext(rows, k);
      hide TallyOf;
      parts := parts + {rows[k].index};
      if rows[k].completed {
        attachments := attachments + 1;
        stored := stored + {rows[k].index};
        if rows[k].guild != "" {
          guilds := guilds + {rows[k].guild};
        }
      }
    }
    assert rows[..|rows|] == rows;
    hide TallyOf;
    StoredAreParts(rows);
    var health := Whole;
    if |stored| < |parts| {
      health := Partial;
    }
    if |stored| == 0 {
      health := Empty;
    }
    h := Summary(attachments, |parts|, |guilds|, health);
  }

  lemma TallyNext(rows: seq<Row>, k: nat)
    requires k < |rows|
    ensures TallyOf(rows[..k + 1]) == Add(TallyOf(rows[..k]), rows[k])
  {
    assert rows[..k + 1][..k] == rows[..k];
  }

  lemma {:induction false} StoredAreParts(rows: seq<Row>)
    ensures TallyOf(rows).stored <= TallyOf(rows).parts
  {
    if rows != [] {
      StoredAreParts(rows[..|rows| - 1]);
    }
  }

  // ----- the batched summary -----

  function Merge(s: Tally, t: Tally): Tally {
    Tally(s.parts + t.parts, s.stored + t.stored, s.attachments + t.attachments, s.guilds + t.guilds)
  }

  lemma MergeAdd(s: Tally, t: Tally, r: Row)
    ensures Merge(s, Add(t, r)) == Add(Merge(s, t), r)
  {
    assert s.parts + (t.parts + {r.index}) == s.parts + t.parts + {r.index};
    assert s.stored + (t.stored + {r.index}) == s.stored + t.stored + {r.index};
    assert s.guilds + (t.guilds + {r.guild}) == s.guilds + t.guilds + {r.guild};
  }

  /** The tally of rows that were gathered n times over. */
  function Times(t: Tally, n: nat): Tally {
    if n == 0 then NOTHING else Tally(t.parts, t.stored, n * t.attachments, t.guilds)
  }

  lemma MergeTimes(t: Tally, n: nat)
    ensures Merge(Times(t, n), t) == Times(t, n + 1)
  {
    assert (n + 1) * t.attachments == n * t.attachments + t.attachments;
  }

  function Get(byFile: map<string, Tally>, id: string): Tally {
    if id in byFile then byFile[id] else NOTHING
  }

  ghost function Gathered(byFile: map<string, Tally>, rows: seq<Row>, batch: seq<string>, id: string): Tally {
    if id in batch then Merge(Get(byFile, id), TallyOf(OfFile(rows, id))) else Get(byFile, id)
  }

  /** After the rows of a batch's query, each is in its file's tally. */
  ghost predicate Gathers(after: map<string, Tally>, byFile: map<string, Tally>, rows: seq<Row>, batch: seq<string>) {
    forall id :: GathersFor(after, byFile, rows, batch, id)
  }

  ghost predicate GathersFor(after: map<string, Tally>, byFile: map<string, Tally>, rows: seq<Row>, batch: seq<string>,
                             id: string) {
    && Get(after, id) == Gathered(byFile, rows, batch, id)
    && (id in after <==> id in byFile || (id in batch && OfFile(rows, id) != []))
  }

  lemma GatherNext(byFile: map<string, Tally>, rows: seq<Row>, r: Row, batch: seq<string>, id: string)
    ensures Gathered(byFile, rows + [r], batch, id)
         == if id == r.file && id in batch then Add(Gathered(byFile, rows, batch, id), r)
            else Gathered(byFile, rows, batch, id)
  {
    OfFileSnoc(rows, r, id);
    if id == r.file {
      var own := OfFile(rows, id);
      assert (own + [r])[..|own|] == own;
      hide Merge, Add, OfFile;
      MergeAdd(Get(byFile, id), TallyOf(own), r);
    }
  }

  lemma OfFileSnoc(rows: seq<Row>, r: Row, id: string)
    ensures OfFile(rows + [r], id) == if r.file == id then OfFile(rows, id) + [r] else OfFile(rows, id)
  {
    assert (rows + [r])[..|rows|] == rows;
  }

  lemma GathersNext(after: map<string, Tally>, byFile: map<string, Tally>, rows: seq<Row>, r: Row, batch: seq<string>)
    requires Gathers(after, byFile, rows, batch)
    ensures Gathers(if r.file in batch then after[r.file := Add(Get(after, r.file), r)] else after,
                    byFile, rows + [r], batch)
  {
    var next := if r.file in batch then after[r.file := Add(Get(after, r.file), r)] else after;
    hide Add, Gathered, OfFile;
    forall id ensures GathersFor(next, byFile, rows + [r], batch, id) {
      assert GathersFor(after, byFile, rows, batch, id);
      hide Gathers;
      GatherNext(byFile, rows, r, batch, id);
      OfFileSnoc(rows, r, id);
    }
  }

  lemma GathersNone(byFile: map<string, Tally>, batch: seq<string>)
    ensures Gathers(byFile, byFile, [], batch)
  {
    forall id ensures GathersFor(byFile, byFile, [], batch, id) {
      var t := Get(byFile, id);
      assert t.parts + {} == t.parts && t.stored + {} == t.stored && t.guilds + {} == t.guilds;
    }
  }

  method AddBatch(byFile: map<string, Tally>, table: seq<Row>, batch: seq<string>) returns (after: map<string, Tally>)
    ensures Gathers(after, byFile, table, batch)
  {
    after := byFile;
    GathersNone(byFile, batch);
    hide Gathers, Add;
    for k := 0 to |table|
      invariant Gathers(after, byFile, table[..k], batch)
    {
      var r := table[k];
      assert table[..k + 1] == table[..k] + [r];
      GathersNext(after, byFile, table[..k], r, batch);
      if r.file in batch {
        after := after[r.file := Add(Get(after, r.file), r)];
      }
    }
    assert table[..|table|] == table;
  }

  /** How many of the batches of ids[from..] name a file. */
  function Batches(ids: seq<string>, maxIDs: nat, id: string): nat
    requires maxIDs > 0
  {
    if ids == [] then 0
    else if |ids| <= maxIDs then (if id in ids then 1 else 0)
    else (if id in ids[..maxIDs] then 1 else 0) + Batches(ids[maxIDs..], maxIDs, id)
  }

  /** What the batches before start have gathered. */
  ghost predicate TimesLeft(byFile: map<string, Tally>, table: seq<Row>, ids: seq<string>, maxIDs: nat, start: nat,
                            id: string)
    requires maxIDs > 0 && start <= |ids|
  {
    && Batches(ids[start..], maxIDs, id) <= Batches(ids, maxIDs, id)
    && Get(byFile, id) == Times(TallyOf(OfFile(table, id)),
                                Batches(ids, maxIDs, id) - Batches(ids[start..], maxIDs, id))
    && (id in byFile <==> id in ids[..start] && OfFile(table, id) != [])
  }

  ghost predicate Progress(byFile: map<string, Tally>, table: seq<Row>, ids: seq<string>, maxIDs: nat, start: nat)
    requires maxIDs > 0 && start <= |ids|
  {
    forall id :: TimesLeft(byFile, table, ids, maxIDs, start, id)
  }

  lemma NextBatch(ids: seq<string>, maxIDs: nat, start: nat, end: nat, id: string)
    requires maxIDs > 0 && start < |ids| && end == (if start + maxIDs > |ids| then |ids| else start + maxIDs)
    ensures Batches(ids[start..], maxIDs, id)
         == (if id in ids[start..end] then 1 else 0) + Batches(ids[end..], maxIDs, id)
  {
    if |ids[start..]| <= maxIDs {
      assert ids[start..end] == ids[start..];
    } else {
      assert ids[start..][..maxIDs] == ids[start..end] && ids[start..][maxIDs..] == ids[end..];
    }
  }

  lemma BatchTimes(before: map<string, Tally>, after: map<string, Tally>, table: seq<Row>, ids: seq<string>,
                   maxIDs: nat, start: nat, end: nat, id: string)
    requires maxIDs > 0 && start < |ids| && end == (if start + maxIDs > |ids| then |ids| else start + maxIDs)
    requires TimesLeft(before, table, ids, maxIDs, start, id) && Gathers(after, before, table, ids[start..end])
    ensures TimesLeft(after, table, ids, maxIDs, end, id)
  {
    hide *;
    GathersAt(after, before, table, ids[start..end], id);
    assert ids[..end] == ids[..start] + ids[start..end];
    var t, all, left, next := TallyOf(OfFile(table, id)), Batches(ids, maxIDs, id), Batches(ids[start..], maxIDs, id),
      Batches(ids[end..], maxIDs, id);
    TimesLeftIs(before, table, ids, maxIDs, start, id);
    TimesLeftIs(after, table, ids, maxIDs, end, id);
    assert Get(before, id) == Times(t, all - left);
    NextBatch(ids, maxIDs, start, end, id);
    MergeTimes(t, all - left);
    assert Get(after, id) == Times(t, all - next);
  }

  lemma TimesLeftIs(byFile: map<string, Tally>, table: seq<Row>, ids: seq<string>, maxIDs: nat, start: nat, id: string)
    requires maxIDs > 0 && start <= |ids|
    ensures var t, all, left := TallyOf(OfFile(table, id)), Batches(ids, maxIDs, id), Batches(ids[start..], maxIDs, id);
            TimesLeft(byFile, table, ids, maxIDs, start, id) <==>
              && left <= all && Get(byFile, id) == Times(t, all - left)
              && (id in byFile <==> id in ids[..start] && OfFile(table, id) != [])
  {
    hide Times, TallyOf, Batches, OfFile, Get;
  }

  lemma GathersAt(after: map<string, Tally>, before: map<string, Tally>, table: seq<Row>, batch: seq<string>,
                  id: string)
    requires Gathers(after, before, table, batch)
    ensures Get(after, id) ==
              if id in batch then Merge(Get(before, id), TallyOf(OfFile(table, id))) else Get(before, id)
    ensures id in after <==> id in before || (id in batch && OfFile(table, id) != [])
  {
    assert GathersFor(after, before, table, batch, id);
    hide Gathers;
  }

  lemma ProgressNext(before: map<string, Tally>, after: map<string, Tally>, table: seq<Row>, ids: seq<string>,
                     maxIDs: nat, start: nat, end: nat)
    requires maxIDs > 0 && start < |ids| && end == (if start + maxIDs > |ids| then |ids| else start + maxIDs)
    requires Progress(before, table, ids, maxIDs, start) && Gathers(after, before, table, ids[start..end])
    ensures Progress(after, table, ids, maxIDs, end)
  {
    forall id ensures TimesLeft(after, table, ids, maxIDs, end, id) {
      assert TimesLeft(before, table, ids, maxIDs, start, id);
      hide TimesLeft, Gathers, Progress;
      BatchTimes(before, after, table, ids, maxIDs, start, end, id);
    }
  }

  lemma ProgressStart(table: seq<Row>, ids: seq<string>, maxIDs: nat)
    requires maxIDs > 0
    ensures Progress(map[], table, ids, maxIDs, 0)
  {
    assert ids[0..] == ids && ids[..0] == [];
  }

  lemma ProgressEnd(byFile: map<string, Tally>, table: seq<Row>, ids: seq<string>, maxIDs: nat, id: string)
    requires maxIDs > 0 && Progress(byFile, table, ids, maxIDs, |ids|)
    ensures id in byFile <==> id in ids && OfFile(table, id) != []
    ensures id in byFile ==> byFile[id] == Times(TallyOf(OfFile(table, id)), Batches(ids, maxIDs, id))
  {
    assert TimesLeft(byFile, table, ids, maxIDs, |ids|, id);
    assert ids[..|ids|] == ids && ids[|ids|..] == [];
  }

  method BulkChunkHealth(table: seq<Row>, ids: seq<string>, maxIDs: nat) returns (out: map<string, Summary>)
    requires maxIDs > 0
    ensures forall id :: id in out <==> id in ids && OfFile(table, id) != []
    ensures forall id :: id in out ==> out[id] == Summarize(Times(TallyOf(OfFile(table, id)), Batches(ids, maxIDs, id)))
  {
    var byFile: map<string, Tally> := map[];
    var start := 0;
    ProgressStart(table, ids, maxIDs);
    hide Progress, Gathers, Summarize, Times, OfFile, TallyOf, Batches;
    while start < |ids|
      invariant 0 <= start <= |ids| && Progress(byFile, table, ids, maxIDs, start)
    {
      var end := start + maxIDs;
      if end > |ids| {
        end := |ids|;
      }
      ghost var before := byFile;
      byFile := AddBatch(byFile, table, ids[start..end]);
      ProgressNext(before, byFile, table, ids, maxIDs, start, end);
      start := end;
    }
    forall id
      ensures id in byFile <==> id in ids && OfFile(table, id) != []
      ensures id in byFile ==> byFile[id] == Times(TallyOf(OfFile(table, id)), Batches(ids, maxIDs, id))
    {
      ProgressEnd(byFile, table, ids, maxIDs, id);
    }
    out := map id | id in byFile :: Summarize(byFile[id]);
  }

  const MAX_IDS := 20000

  /** decorate: the batched summary where there is one, else the file's own. */
  function Shown(bulk: map<string, Summary>, table: seq<Row>, id: string): Summary {
    if id in bulk then bulk[id] else Summarize(TallyOf(OfFile(table, id)))
  }

  /** The batched summary of a listed file is its own summary, whatever the batch size,
      exactly when the file is asked for in one batch only or has nothing stored. */
  lemma BulkIsSingle(bulk: map<string, Summary>, table: seq<Row>, ids: seq<string>, maxIDs: nat, id: string)
    requires maxIDs > 0 && id in ids
    requires id in bulk <==> OfFile(table, id) != []
    requires id in bulk ==> bulk[id] == Summarize(Times(TallyOf(OfFile(table, id)), Batches(ids, maxIDs, id)))
    ensures Shown(bulk, table, id) == Summarize(TallyOf(OfFile(table, id)))
       <==> Batches(ids, maxIDs, id) == 1 || TallyOf(OfFile(table, id)).attachments == 0
  {
    InSomeBatch(ids, maxIDs, id);
    TallyOfNone(table, id);
    TimesTells(TallyOf(OfFile(table, id)), Batches(ids, maxIDs, id));
    hide Batches, OfFile, TallyOf, Times, Summarize;
  }

  lemma TimesTells(t: Tally, n: nat)
    requires n > 0
    ensures Summarize(Times(t, n)) == Summarize(t) <==> n == 1 || t.attachments == 0
  {
    TimesOf(n, t.attachments);
  }

  lemma TimesOf(n: nat, a: nat)
    requires n > 0
    ensures n * a == a <==> n == 1 || a == 0
  {
    assert n * a == a + (n - 1) * a;
  }

  lemma TallyOfNone(table: seq<Row>, id: string)
    ensures OfFile(table, id) == [] ==> TallyOf(OfFile(table, id)).attachments == 0
  {
  }

  lemma {:induction false} InSomeBatch(ids: seq<string>, maxIDs: nat, id: string)
    requires maxIDs > 0
    ensures Batches(ids, maxIDs, id) > 0 <==> id in ids
  {
    if |ids| > maxIDs {
      InSomeBatch(ids[maxIDs..], maxIDs, id);
      assert ids == ids[..maxIDs] + ids[maxIDs..];
    }
  }

  /** A list without duplicates asks for each file once, however it is cut into batches. */
  lemma {:induction false} DistinctOnce(ids: seq<string>, maxIDs: nat, id: string)
    requires maxIDs > 0 && NoDuplicates(ids)
    ensures Batches(ids, maxIDs, id) == if id in ids then 1 else 0
  {
    if |ids| > maxIDs {
      DistinctOnce(ids[maxIDs..], maxIDs, id);
      assert ids == ids[..maxIDs] + ids[maxIDs..];
      forall i, j | 0 <= i < maxIDs && 0 <= j < |ids| - maxIDs ensures ids[..maxIDs][i] != ids[maxIDs..][j] {
        assert ids[i] != ids[maxIDs + j];
      }
    }
  }

  /** decorate gives every file of a listing the summary fileHealth would. */
  method Decorate(table: seq<Row>, ids: seq<string>) returns (views: seq<Summary>)
    requires NoDuplicates(ids)
    ensures |views| == |ids|
    ensures forall i :: 0 <= i < |ids| ==> views[i] == Summarize(TallyOf(OfFile(table, ids[i])))
  {
    hide Summarize, TallyOf, OfFile, Batches, NoDuplicates;
    var health := BulkChunkHealth(table, ids, MAX_IDS);
    views := [];
    for i := 0 to |ids|
      invariant |views| == i
      invariant forall j :: 0 <= j < i ==> views[j] == Summarize(TallyOf(OfFile(table, ids[j])))
    {
      assert ids[i] in ids;
      DistinctOnce(ids, MAX_IDS, ids[i]);
      BulkIsSingle(health, table, ids, MAX_IDS, ids[i]);
      if ids[i] in health {
        views := views + [health[ids[i]]];
      } else {
        var own := FileHealth(Some(OfFile(table, ids[i])));
        views := views + [own];
      }
    }
  }

  // ----- what the status says -----

  lemma {:induction false} TallyIs(rows: seq<Row>, i: nat)
    ensures i in TallyOf(rows).parts <==> exists k :: 0 <= k < |rows| && rows[k].index == i
    ensures i in TallyOf(rows).stored <==> exists k :: 0 <= k < |rows| && rows[k].index == i && rows[k].completed
  {
    if rows != [] {
      var n := |rows| - 1;
      TallyIs(rows[..n], i);
      assert forall k :: 0 <= k < n ==> rows[..n][k] == rows[k];
      assert rows[n].index == i || !(exists k :: k == n && rows[k].index == i);
    }
  }

  ghost predicate PartStored(rows: seq<Row>, i: nat) {
    exists k :: 0 <= k < |rows| && rows[k].index == i && rows[k].completed
  }

  /** A file is ok exactly when it has parts and every part has a stored copy, empty exactly
      when no copy is stored, and partial in between. */
  lemma StatusIsExact(rows: seq<Row>)
    ensures var status := Summarize(TallyOf(rows)).status;
            && (status == Whole <==> rows != [] && forall k :: 0 <= k < |rows| ==> PartStored(rows, rows[k].index))
            && (status == Empty <==> forall k :: 0 <= k < |rows| ==> !rows[k].completed)
  {
    hide *;
    var t := TallyOf(rows);
    StoredAreParts(rows);
    SubsetSize(t.stored, t.parts);
    StatusIs(t);
    NoPartsIsEmpty(rows);
    StoredIsParts(rows);
    StoredIsNone(rows);
  }

  lemma StatusIs(t: Tally)
    requires t.stored <= t.parts && |t.stored| <= |t.parts| && (|t.stored| == |t.parts| ==> t.stored == t.parts)
    ensures Summarize(t).status == Whole <==> t.stored != {} && t.stored == t.parts
    ensures Summarize(t).status == Empty <==> t.stored == {}
  {
  }

  lemma NoPartsIsEmpty(rows: seq<Row>)
    ensures TallyOf(rows).parts == {} <==> rows == []
  {
  }

  lemma StoredIsParts(rows: seq<Row>)
    requires TallyOf(rows).stored <= TallyOf(rows).parts
    ensures TallyOf(rows).stored == TallyOf(rows).parts <==>
            forall k :: 0 <= k < |rows| ==> PartStored(rows, rows[k].index)
  {
    var t := TallyOf(rows);
    hide TallyOf;
    forall k | 0 <= k < |rows|
      ensures rows[k].index in t.parts && (rows[k].index in t.stored <==> PartStored(rows, rows[k].index)) {
      TallyIs(rows, rows[k].index);
    }
    hide PartStored;
    if forall k :: 0 <= k < |rows| ==> PartStored(rows, rows[k].index) {
      forall i | i in t.parts ensures i in t.stored {
        TallyIs(rows, i);
        var k :| 0 <= k < |rows| && rows[k].index == i;
      }
    }
  }

  lemma StoredIsNone(rows: seq<Row>)
    ensures TallyOf(rows).stored == {} <==> forall k :: 0 <= k < |rows| ==> !rows[k].completed
  {
    var t := TallyOf(rows);
    hide TallyOf;
    if k :| 0 <= k < |rows| && rows[k].completed {
      TallyIs(rows, rows[k].index);
    } else if i :| i in t.stored {
      TallyIs(rows, i);
    }
  }

  // ----- the breakdown by parts -----

  datatype Entry = Entry(size: nat, copies: nat, guilds: set<string>, stored: bool)

  datatype Part = Part(index: nat, size: nat, copies: nat, servers: nat, stored: bool)

  /** What the loop gathers for one part; a stored copy's size replaces the size seen first. */
  function EntryOf(rows: seq<Row>, i: nat): Option<Entry> {
    if rows == [] then None
    else if rows[|rows| - 1].index != i then EntryOf(rows[..|rows| - 1], i)
    else Some(Noted(EntryOf(rows[..|rows| - 1], i), rows[|rows| - 1]))
  }

  function Noted(seen: Option<Entry>, r: Row): Entry {
    var e := if seen.Some? then seen.value else Entry(r.size, 0, {}, false);
    if !r.completed then e
    else Entry(if r.size > 0 then r.size else e.size, e.copies + 1,
               if r.guild != "" then e.guilds + {r.guild} else e.guilds, true)
  }

  /** The stored copies of a part. */
  function Copies(rows: seq<Row>, i: nat): nat {
    if rows == [] then 0
    else Copies(rows[..|rows| - 1], i) + if rows[|rows| - 1].index == i && rows[|rows| - 1].completed then 1 else 0
  }

  lemma {:induction false} EntryIs(rows: seq<Row>, i: nat)
    ensures EntryOf(rows, i).Some? <==> i in TallyOf(rows).parts
    ensures EntryOf(rows, i).Some? ==>
              var e := EntryOf(rows, i).value;
              && e.copies == Copies(rows, i) && (e.stored <==> e.copies > 0)
              && (e.stored <==> i in TallyOf(rows).stored)
              && forall g :: g in e.guilds <==>
                   exists k :: 0 <= k < |rows| && rows[k].index == i && rows[k].completed && rows[k].guild == g != ""
    ensures EntryOf(rows, i).None? ==> Copies(rows, i) == 0 && i !in TallyOf(rows).stored
  {
    if rows != [] {
      var n := |rows| - 1;
      var front := rows[..n];
      EntryIs(front, i);
      assert forall k :: 0 <= k < n ==> front[k] == rows[k];
      if EntryOf(front, i).None? {
        TallyIs(front, i);
        assert forall k :: 0 <= k < n ==> rows[k].index != i;
      }
      if EntryOf(rows, i).Some? {
        forall g ensures g in EntryOf(rows, i).value.guilds <==> HasGuild(rows, i, g) {
          assert HasGuild(rows, i, g)
            <==> HasGuild(front, i, g) || (rows[n].index == i && rows[n].completed && rows[n].guild == g != "");
        }
      }
    }
  }

  ghost predicate HasGuild(rows: seq<Row>, i: nat, g: string) {
    exists k :: 0 <= k < |rows| && rows[k].index == i && rows[k].completed && rows[k].guild == g != ""
  }

  function View(rows: seq<Row>, i: nat): Part
    requires EntryOf(rows, i).Some?
  {
    var e := EntryOf(rows, i).value;
    Part(i, e.size, e.copies, |e.guilds|, e.stored)
  }

  ghost predicate Ascending(parts: seq<Part>) {
    forall j, k :: 0 <= j < k < |parts| ==> parts[j].index < parts[k].index
  }

  ghost predicate Mentions(parts: seq<Part>, i: nat) {
    exists k :: 0 <= k < |parts| && parts[k].index == i
  }

  /** One entry per part of the file, in index order. */
  ghost predicate IsBreakdown(rows: seq<Row>, out: seq<Part>) {
    && Ascending(out)
    && (forall i :: i in TallyOf(rows).parts <==> Mentions(out, i))
    && (forall k :: 0 <= k < |out| ==> EntryOf(rows, out[k].index).Some? && out[k] == View(rows, out[k].index))
  }

  method GatherParts(rows: seq<Row>) returns (byIndex: map<nat, Entry>)
    ensures forall i :: i in byIndex <==> i in TallyOf(rows).parts
    ensures forall i :: i in byIndex ==> EntryOf(rows, i) == Some(byIndex[i])
  {
    byIndex := map[];
    for k := 0 to |rows|
      invariant forall i: nat :: (if i in byIndex then Some(byIndex[i]) else None) == EntryOf(rows[..k], i)
    {
      assert rows[..k + 1][..k] == rows[..k];
      var i := rows[k].index;
      byIndex := byIndex[i := Noted(if i in byIndex then Some(byIndex[i]) else None, rows[k])];
    }
    assert rows[..|rows|] == rows;
    hide TallyOf, Noted;
    forall i: nat ensures i in byIndex <==> i in TallyOf(rows).parts {
      EntryIs(rows, i);
    }
  }

  /** The breakdown as far as the first k of the ordered indexes. */
  ghost predicate Listed(rows: seq<Row>, order: seq<nat>, out: seq<Part>, k: nat) {
    && |out| == k <= |order|
    && forall j :: 0 <= j < k ==> EntryOf(rows, order[j]).Some? && out[j] == View(rows, order[j])
  }

  lemma NothingListed(rows: seq<Row>, order: seq<nat>)
    ensures Listed(rows, order, [], 0)
    ensures IsBreakdown([], [])
  {
  }

  lemma ListOne(rows: seq<Row>, order: seq<nat>, out: seq<Part>, k: nat, e: Entry)
    requires Listed(rows, order, out, k) && k < |order| && EntryOf(rows, order[k]) == Some(e)
    ensures Listed(rows, order, out + [Part(order[k], e.size, e.copies, |e.guilds|, e.stored)], k + 1)
  {
    hide EntryOf;
  }

  lemma SortedAt(order: seq<nat>, keys: set<nat>, k: nat)
    requires Sorts(order, keys) && k < |order|
    ensures order[k] in keys
  {
    assert order[k] in order;
  }

  lemma ListedIsBreakdown(rows: seq<Row>, order: seq<nat>, keys: set<nat>, out: seq<Part>)
    requires Listed(rows, order, out, |order|) && Sorts(order, keys)
    requires forall i: nat :: i in keys <==> i in TallyOf(rows).parts
    ensures IsBreakdown(rows, out)
  {
    hide TallyOf, EntryOf;
    forall i: nat ensures i in TallyOf(rows).parts <==> Mentions(out, i) {
      if i in TallyOf(rows).parts {
        assert i in order;
        var k :| 0 <= k < |order| && order[k] == i;
        assert out[k].index == i;
      }
      if Mentions(out, i) {
        var k :| 0 <= k < |out| && out[k].index == i;
        assert order[k] in order;
      }
    }
  }

  method FilePartsBreakdown(chunks: Option<seq<Row>>) returns (out: seq<Part>)
    ensures IsBreakdown(if chunks.Some? then chunks.value else [], out)
  {
    hide *;
    NothingListed([], []);
    if chunks.None? || chunks.value == [] {
      return [];
    }
    var rows := chunks.value;
    var byIndex := GatherParts(rows);
    var order := SortKeys(byIndex.Keys);
    out := [];
    NothingListed(rows, order);
    for k := 0 to |order|
      invariant Listed(rows, order, out, k)
    {
      SortedAt(order, byIndex.Keys, k);
      var e := byIndex[order[k]];
      ListOne(rows, order, out, k, e);
      out := out + [Part(order[k], e.size, e.copies, |e.guilds|, e.stored)];
    }
    ListedIsBreakdown(rows, order, byIndex.Keys, out);
  }

  function SumCopies(parts: seq<Part>): nat {
    if parts == [] then 0 else SumCopies(parts[..|parts| - 1]) + parts[|parts| - 1].copies
  }

  function CopiesAt(rows: seq<Row>, parts: seq<Part>): nat {
    if parts == [] then 0 else CopiesAt(rows, parts[..|parts| - 1]) + Copies(rows, parts[|parts| - 1].index)
  }

  lemma {:induction false} OneMoreRow(rows: seq<Row>, r: Row, parts: seq<Part>)
    requires Ascending(parts)
    ensures CopiesAt(rows + [r], parts)
         == CopiesAt(rows, parts) + if r.completed && Mentions(parts, r.index) then 1 else 0
  {
    if parts != [] {
      var n := |parts| - 1;
      OneMoreRow(rows, r, parts[..n]);
      assert (rows + [r])[..|rows|] == rows;
      assert forall k :: 0 <= k < n ==> parts[..n][k] == parts[k];
    }
  }

  lemma {:induction false} CopiesAddUp(rows: seq<Row>, parts: seq<Part>)
    requires Ascending(parts)
    requires forall i :: i in TallyOf(rows).parts ==> Mentions(parts, i)
    ensures CopiesAt(rows, parts) == TallyOf(rows).attachments
  {
    if rows == [] {
      NoCopies(parts);
    } else {
      var front, last := rows[..|rows| - 1], rows[|rows| - 1];
      var t := TallyOf(front);
      assert TallyOf(rows) == Add(t, last);
      assert rows == front + [last];
      hide TallyOf, CopiesAt, Mentions;
      assert last.index in TallyOf(rows).parts && t.parts <= TallyOf(rows).parts;
      CopiesAddUp(front, parts);
      OneMoreRow(front, last, parts);
    }
  }

  lemma {:induction false} NoCopies(parts: seq<Part>)
    ensures CopiesAt([], parts) == 0
  {
    if parts != [] {
      NoCopies(parts[..|parts| - 1]);
    }
  }

  lemma {:induction false} SumIsCopiesAt(rows: seq<Row>, parts: seq<Part>)
    requires forall k :: 0 <= k < |parts| ==>
               EntryOf(rows, parts[k].index).Some? && parts[k] == View(rows, parts[k].index)
    ensures SumCopies(parts) == CopiesAt(rows, parts)
  {
    if parts != [] {
      SumIsCopiesAt(rows, parts[..|parts| - 1]);
      EntryIs(rows, parts[|parts| - 1].index);
    }
  }

  /** The copies of a breakdown sum to the attachments of the summary. */
  lemma BreakdownSums(rows: seq<Row>, out: seq<Part>)
    requires IsBreakdown(rows, out)
    ensures SumCopies(out) == Summarize(TallyOf(rows)).attachments
    ensures forall k :: 0 <= k < |out| ==>
              (out[k].stored <==> PartStored(rows, out[k].index)) && (out[k].stored <==> out[k].copies > 0)
  {
    SumIsCopiesAt(rows, out);
    CopiesAddUp(rows, out);
    forall k | 0 <= k < |out|
      ensures (out[k].stored <==> PartStored(rows, out[k].index)) && (out[k].stored <==> out[k].copies > 0)
    {
      EntryIs(rows, out[k].index);
      TallyIs(rows, out[k].index);
    }
  }
}
