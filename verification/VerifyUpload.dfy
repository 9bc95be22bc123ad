/** What an OK of VerifyFile is worth for a file that the upload engine stored: of the rows it
    picks, it tells exactly whether a read for one of them was cut short. */
module VerifyUpload {
  import opened Wrappers
  import opened Bytes
  import opened Collections
  import opened Upload
  import opened UploadRuns
  import opened WholeReads
  import opened Recovery
  import opened Layout
  import opened Verify
  import opened RoundTrip

  /** The rows of a file, in any order. */
  ghost predicate Lists(s: State, file: string, rows: seq<Row>) {
    && (forall k :: k in s.rows && s.rows[k].file == file ==> s.rows[k] in rows)
    && (forall r :: r in rows ==> IsRow(s, file, r))
  }

  ghost predicate IsRow(s: State, file: string, r: Row) {
    exists k :: k in s.rows && s.rows[k] == r && r.file == file
  }

  /** The rows VerifyFile picks, one for each place, with their ids. */
  ghost predicate Picks(s: State, file: string, chunks: seq<Row>, ids: seq<nat>) {
    && |ids| == |chunks|
    && forall i :: 0 <= i < |chunks| ==> PickedAt(s, file, chunks, ids, i)
  }

  ghost predicate PickedAt(s: State, file: string, chunks: seq<Row>, ids: seq<nat>, i: nat)
    requires i < |chunks| == |ids|
  {
    && ids[i] in s.rows && s.rows[ids[i]] == chunks[i]
    && chunks[i].file == file && chunks[i].index == i && chunks[i].status == Completed
  }

  /** What is fetched for a row, whichever way to the attachment is up. */
  ghost predicate Got(s: State, file: string, r: Row, got: Option<seq<byte>>) {
    exists origs, linkUp, messageUp :: GotBy(s, file, r, got, origs, linkUp, messageUp)
  }

  ghost predicate GotBy(s: State, file: string, r: Row, got: Option<seq<byte>>, origs: seq<Row>, linkUp: bool,
                        messageUp: bool) {
    && Answers(s, r.sha, origs) && (linkUp || messageUp)
    && var bytes := Fetched(s.store, file, r, origs, linkUp, messageUp);
       got == if bytes.Ok? then Some(bytes.value) else None
  }

  ghost predicate AllGot(s: State, file: string, chunks: seq<Row>, got: seq<Option<seq<byte>>>) {
    |got| == |chunks| && forall i :: 0 <= i < |chunks| ==> Got(s, file, chunks[i], got[i])
  }

  // ----- the rows that are picked -----

  /** A completed upload has a first completed row for each place, so its parts are
      contiguous. */
  lemma PickedAreContiguous(s: State, o: Order, c: nat, rows: seq<Row>)
    requires AllStored(s, o) && WellPlanned(o, c) && OwnFile(o) && Lists(s, o.file, rows)
    ensures FirstCompleted(rows).Keys == UpTo(PartCount(|o.content|, c))
  {
    var n := PartCount(|o.content|, c);
    forall i: nat ensures i in FirstCompleted(rows) <==> i < n {
      if i in FirstCompleted(rows) {
        FirstCompletedRow(s, o, c, rows, i);
      }
      if i < n {
        PlaceIsCompleted(s, o, c, rows, i);
      }
    }
    hide *;
  }

  /** Every row of the order is stored. Nothing is said of the reads. */
  ghost predicate AllStored(s: State, o: Order) {
    && Inv(s) && RowsWithin(s, o.file, o.parts.Keys)
    && o.file in s.files && s.files[o.file] == o.content
    && (forall k :: k in o.parts ==> k in s.rows && s.rows[k].status == Completed && SamePlace(s.rows[k], o.parts[k]))
  }

  lemma FirstCompletedRow(s: State, o: Order, c: nat, rows: seq<Row>, i: nat)
    requires AllStored(s, o) && WellPlanned(o, c) && Lists(s, o.file, rows) && i in FirstCompleted(rows)
    ensures i < PartCount(|o.content|, c) && FirstCompleted(rows)[i] in rows
    ensures FirstCompleted(rows)[i].index == i && FirstCompleted(rows)[i].status == Completed
  {
    FirstIsRow(rows, i);
    var r := FirstCompleted(rows)[i];
    hide *;
    var k := RowOf(s, o.file, rows, r);
    RowPlaced(s, o, c, k);
  }

  lemma FirstIsRow(rows: seq<Row>, i: nat)
    requires i in FirstCompleted(rows)
    ensures var r := FirstCompleted(rows)[i]; r in rows && r.index == i && r.status == Completed
  {
    FirstCompletedIs(rows, i);
  }

  lemma RowOf(s: State, file: string, rows: seq<Row>, r: Row) returns (k: nat)
    requires Lists(s, file, rows) && r in rows
    ensures k in s.rows && s.rows[k] == r && r.file == file
  {
    assert IsRow(s, file, r);
    k :| k in s.rows && s.rows[k] == r && r.file == file;
  }

  lemma RowPlaced(s: State, o: Order, c: nat, k: nat)
    requires AllStored(s, o) && WellPlanned(o, c) && k in s.rows && s.rows[k].file == o.file
    ensures s.rows[k].index < PartCount(|o.content|, c)
  {
    hide Inv, PartCount, PartSize;
    assert k in o.parts;
    InPlace(o.parts[k].index, o.parts[k].offset, o.parts[k].size, |o.content|, c);
  }

  lemma PlaceIsCompleted(s: State, o: Order, c: nat, rows: seq<Row>, i: nat)
    requires AllStored(s, o) && WellPlanned(o, c) && OwnFile(o) && Lists(s, o.file, rows) &&
             i < PartCount(|o.content|, c)
    ensures i in FirstCompleted(rows)
  {
    hide *;
    var k := RowWithIndex(o, c, i);
    StoredRowAt(s, o, k);
    ListedRow(s, o.file, rows, k);
    HasFirst(rows, s.rows[k]);
  }

  lemma StoredRowAt(s: State, o: Order, k: nat)
    requires AllStored(s, o) && OwnFile(o) && k in o.parts
    ensures k in s.rows && s.rows[k].file == o.file && s.rows[k].status == Completed &&
            s.rows[k].index == o.parts[k].index
  {
    hide Inv;
  }

  lemma ListedRow(s: State, file: string, rows: seq<Row>, k: nat)
    requires Lists(s, file, rows) && k in s.rows && s.rows[k].file == file
    ensures s.rows[k] in rows
  {
  }

  lemma HasFirst(rows: seq<Row>, r: Row)
    requires r in rows && r.status == Completed
    ensures r.index in FirstCompleted(rows)
  {
    var m :| 0 <= m < |rows| && rows[m] == r;
    FirstCompletedIs(rows, r.index);
  }

  // ----- the parts cut the file -----

  /** Each picked row stands in its place. */
  ghost predicate Placed(chunks: seq<Row>, file: seq<byte>, c: nat)
    requires c > 0
  {
    && |chunks| == PartCount(|file|, c)
    && forall i :: 0 <= i < |chunks| ==> PlacedAt(i, chunks[i].offset, chunks[i].size, |file|, c)
  }

  lemma {:induction false} EndIs(chunks: seq<Row>, file: seq<byte>, c: nat, k: nat)
    requires c > 0 && Placed(chunks, file, c) && k <= |chunks|
    ensures End(chunks, k) == if k == PartCount(|file|, c) then |file| else k * c
  {
    if k > 0 {
      EndIs(chunks, file, c, k - 1);
      PartSizeFits(|file|, c, k - 1);
      assert PlacedAt(k - 1, chunks[k - 1].offset, chunks[k - 1].size, |file|, c);
      hide PartSize, PartCount;
    } else {
      CountBounds(|file|, c);
    }
  }

  lemma PlacedCuts(chunks: seq<Row>, file: seq<byte>, c: nat)
    requires c > 0 && Placed(chunks, file, c)
    ensures Cuts(chunks, file)
  {
    hide End, PartCount, PartSize;
    forall i | 0 <= i < |chunks| ensures chunks[i].offset == End(chunks, i) {
      EndIs(chunks, file, c, i);
      assert PlacedAt(i, chunks[i].offset, chunks[i].size, |file|, c);
    }
    EndIs(chunks, file, c, |chunks|);
  }

  lemma PicksPlaced(s: State, o: Order, c: nat, chunks: seq<Row>, ids: seq<nat>)
    requires AllStored(s, o) && WellPlanned(o, c) && Picks(s, o.file, chunks, ids) &&
             |chunks| == PartCount(|o.content|, c)
    ensures Placed(chunks, o.content, c)
  {
    hide PlacedAt, PartCount, Inv;
    forall i | 0 <= i < |chunks| ensures PlacedAt(i, chunks[i].offset, chunks[i].size, |o.content|, c) {
      assert PickedAt(s, o.file, chunks, ids, i);
      assert ids[i] in o.parts;
    }
  }

  // ----- what is fetched -----

  /** A picked row yields what was read for it, if that was anything. */
  lemma GotIs(s: State, file: string, r: Row, got: Option<seq<byte>>)
    requires RowSound(s, r) && r.status == Completed && Got(s, file, r, got)
    ensures r.sha.Sha256? && r.sha.of <= Plain(s, r) && |Plain(s, r)| == r.size
    ensures got == if r.sha.of != [] then Some(r.sha.of) else None
  {
    hide Fetched, Answers, Plain;
    var origs, linkUp, messageUp :| GotBy(s, file, r, got, origs, linkUp, messageUp);
    SoundRowOpens(s, file, r, origs, linkUp, messageUp);
    PlainSize(s, r);
  }

  lemma PlainSize(s: State, r: Row)
    requires RowSound(s, r)
    ensures |Plain(s, r)| == r.size
  {
  }

  /** The bytes of a picked row are its piece of the file. */
  lemma PlainIsPiece(s: State, o: Order, chunks: seq<Row>, ids: seq<nat>, i: nat)
    requires AllStored(s, o) && Picks(s, o.file, chunks, ids) && Cuts(chunks, o.content) && i < |chunks|
    ensures Plain(s, chunks[i]) == Piece(chunks, o.content, i) && RowSound(s, chunks[i])
  {
    hide *;
    PickedRow(s, o, chunks, ids, i);
    InvSound(s, ids[i]);
    PlainIs(s, chunks[i]);
    PieceIs(chunks, o.content, i);
  }

  lemma PickedRow(s: State, o: Order, chunks: seq<Row>, ids: seq<nat>, i: nat)
    requires AllStored(s, o) && Picks(s, o.file, chunks, ids) && i < |chunks|
    ensures i < |ids| && Inv(s) && ids[i] in s.rows && s.rows[ids[i]] == chunks[i]
    ensures chunks[i].file == o.file && chunks[i].status == Completed && o.file in s.files &&
            s.files[o.file] == o.content
  {
    assert PickedAt(s, o.file, chunks, ids, i);
    hide Inv;
  }

  lemma PlainIs(s: State, r: Row)
    requires RowSound(s, r)
    ensures r.file in s.files && r.offset + r.size <= |s.files[r.file]|
    ensures Plain(s, r) == s.files[r.file][r.offset..r.offset + r.size]
  {
  }

  lemma PieceIs(chunks: seq<Row>, file: seq<byte>, i: nat)
    requires Cuts(chunks, file) && i < |chunks| && chunks[i].offset + chunks[i].size <= |file|
    ensures Piece(chunks, file, i) == file[chunks[i].offset..chunks[i].offset + chunks[i].size]
  {
    assert End(chunks, i + 1) == End(chunks, i) + chunks[i].size;
  }

  lemma InvSound(s: State, k: nat)
    requires Inv(s) && k in s.rows
    ensures RowSound(s, s.rows[k])
  {
  }

  /** What each picked row gives: a prefix of its piece, under its sum; all of it exactly when
      it is not empty and was read whole. */
  lemma PickedGives(s: State, o: Order, chunks: seq<Row>, ids: seq<nat>, got: seq<Option<seq<byte>>>, i: nat)
    requires AllStored(s, o) && Picks(s, o.file, chunks, ids) && Cuts(chunks, o.content)
    requires AllGot(s, o.file, chunks, got) && i < |chunks|
    ensures got[i].Some? ==> got[i].value <= Piece(chunks, o.content, i) && chunks[i].sha == Sha256(got[i].value)
    ensures got[i] == Some(Piece(chunks, o.content, i)) <==> WholeRow(chunks[i]) && chunks[i].size > 0
  {
    hide *;
    PickedRow(s, o, chunks, ids, i);
    GotAt(s, o.file, chunks, got, i);
    PlainIsPiece(s, o, chunks, ids, i);
    GotIs(s, o.file, chunks[i], got[i]);
    PrefixIsWhole(chunks[i].sha.of, Plain(s, chunks[i]));
    WholeRowIs(chunks[i]);
  }

  lemma GotAt(s: State, file: string, chunks: seq<Row>, got: seq<Option<seq<byte>>>, i: nat)
    requires AllGot(s, file, chunks, got) && i < |chunks|
    ensures |got| == |chunks| && Got(s, file, chunks[i], got[i])
  {
  }

  lemma WholeRowIs(r: Row)
    requires r.status == Completed && r.sha.Sha256?
    ensures WholeRow(r) <==> |r.sha.of| == r.size
  {
  }

  // ----- what an OK tells -----

  ghost predicate AllWhole(chunks: seq<Row>) {
    forall i :: 0 <= i < |chunks| ==> WholeRow(chunks[i]) && chunks[i].size > 0
  }

  lemma OkIsWhole(s: State, o: Order, chunks: seq<Row>, ids: seq<nat>, got: seq<Option<seq<byte>>>, sha: Digest)
    requires AllStored(s, o) && Picks(s, o.file, chunks, ids) && Cuts(chunks, o.content)
    requires AllGot(s, o.file, chunks, got) && (sha == NoSum || sha == Sha256(o.content))
    ensures |got| == |chunks| && (Passes(chunks, got, |o.content|, sha) <==> AllWhole(chunks))
  {
    hide AllStored, Picks, Cuts, WholeRow, Got, Passes, Piece;
    forall i | 0 <= i < |chunks|
      ensures got[i].Some? ==> got[i].value <= Piece(chunks, o.content, i) && chunks[i].sha == Sha256(got[i].value)
      ensures got[i] == Some(Piece(chunks, o.content, i)) <==> WholeRow(chunks[i]) && chunks[i].size > 0
    {
      PickedGives(s, o, chunks, ids, got, i);
    }
    OkMeansWhole(chunks, got, o.content, sha);
  }

  ghost function IdSet(ids: seq<nat>): set<nat> {
    set k | k in ids
  }

  lemma AllWholeIs(s: State, file: string, chunks: seq<Row>, ids: seq<nat>, content: seq<byte>, c: nat)
    requires c > 0 && Picks(s, file, chunks, ids) && Placed(chunks, content, c)
    ensures AllWhole(chunks) <==> content != [] && WholeRows(s, IdSet(ids))
  {
    hide PartCount, PartSize, WholeRow, PlacedAt;
    forall i | 0 <= i < |chunks| ensures chunks[i].size > 0 <==> content != [] {
      PlacedSize(chunks, content, c, i);
    }
    SomePlace(content, c);
    assert chunks[0].size > 0 <==> content != [];
    if WholeRows(s, IdSet(ids)) {
      forall i | 0 <= i < |chunks| ensures WholeRow(chunks[i]) {
        assert PickedAt(s, file, chunks, ids, i) && ids[i] in IdSet(ids);
      }
    }
    if AllWhole(chunks) {
      forall k | k in s.rows && k in IdSet(ids) ensures WholeRow(s.rows[k]) {
        var i :| 0 <= i < |ids| && ids[i] == k;
        assert PickedAt(s, file, chunks, ids, i);
      }
    }
  }

  lemma SomePlace(content: seq<byte>, c: nat)
    requires c > 0
    ensures PartCount(|content|, c) > 0
  {
  }

  lemma PlacedSize(chunks: seq<Row>, content: seq<byte>, c: nat, i: nat)
    requires c > 0 && Placed(chunks, content, c) && i < |chunks|
    ensures chunks[i].size > 0 <==> content != []
  {
    assert PlacedAt(i, chunks[i].offset, chunks[i].size, |content|, c);
    PartSizeFits(|content|, c, i);
    hide PartCount, PartSize;
  }

  lemma RunStoresAll(s0: State, j: nat, o: Order, steps: seq<Step>)
    requires Inv(s0) && Fresh(s0, j, o) && Completes(Started(s0, j, o), j, steps)
    ensures AllStored(After(Started(s0, j, o), steps), o)
  {
    var s1 := Started(s0, j, o);
    var s := After(s1, steps);
    CompletesIs(s1, j, steps);
    hide *;
    StartStores(s0, j, o);
    RunKeeps(s1, steps);
    RunAddsNone(s1, steps, o.file, o.parts.Keys);
    RunKeepsJobRows(s1, steps, j);
    ExtendsPlaces(s1, s, o);
    CompletedIsStored(s, o, j);
  }

  lemma CompletedIsStored(s: State, o: Order, j: nat)
    requires Inv(s) && RowsWithin(s, o.file, o.parts.Keys)
    requires o.file in s.files && s.files[o.file] == o.content
    requires forall k :: k in o.parts ==> k in s.rows && SamePlace(s.rows[k], o.parts[k])
    requires j in s.jobs && s.jobs[j].status == JobCompleted && s.jobs[j].rows == o.parts.Keys
    ensures AllStored(s, o)
  {
    assert JobOk(s, j);
    forall k | k in o.parts ensures s.rows[k].status == Completed {
      assert k in Done(s, j);
    }
  }

  lemma PickedWithin(s: State, o: Order, chunks: seq<Row>, ids: seq<nat>)
    requires AllStored(s, o) && Picks(s, o.file, chunks, ids)
    ensures IdSet(ids) <= o.parts.Keys
  {
    hide Inv;
    forall k | k in IdSet(ids) ensures k in o.parts {
      var i :| 0 <= i < |ids| && ids[i] == k;
      assert PickedAt(s, o.file, chunks, ids, i);
    }
  }

  lemma WholeLess(s: State, scope: set<nat>, less: set<nat>)
    requires Whole(s, scope) && less <= scope
    ensures Whole(s, less)
  {
  }

  /** What is stored stays stored, and as whole as it was. */
  lemma AllStoredStays(s: State, o: Order, more: seq<Step>, scope: set<nat>)
    requires AllStored(s, o) && IsRun(s, more) && scope <= o.parts.Keys
    ensures AllStored(After(s, more), o) && (WholeRows(After(s, more), scope) <==> WholeRows(s, scope))
  {
    AllStoredIs(s, o);
    hide *;
    RunKeeps(s, more);
    RunAddsNone(s, more, o.file, o.parts.Keys);
    ExtendsAllStored(s, After(s, more), o);
    ExtendsWhole(s, After(s, more), o, scope);
  }

  lemma AllStoredIs(s: State, o: Order)
    requires AllStored(s, o)
    ensures Inv(s) && RowsWithin(s, o.file, o.parts.Keys)
  {
  }

  lemma ExtendsAllStored(s: State, t: State, o: Order)
    requires AllStored(s, o) && Extends(s, t) && Inv(t) && RowsWithin(t, o.file, o.parts.Keys)
    ensures AllStored(t, o)
  {
    hide Inv, RowsWithin;
  }

  lemma ExtendsWhole(s: State, t: State, o: Order, scope: set<nat>)
    requires AllStored(s, o) && Extends(s, t) && scope <= o.parts.Keys
    ensures WholeRows(t, scope) <==> WholeRows(s, scope)
  {
    hide Inv, RowsWithin;
    forall k | k in scope ensures k in s.rows && k in t.rows && (WholeRow(t.rows[k]) <==> WholeRow(s.rows[k])) {
      assert k in o.parts && RowKept(s.rows[k], t.rows[k]);
    }
    hide WholeRow, AllStored, Extends;
  }

  /** From where a file's job starts, in any state a run can reach, to where the job is marked
      completed, and at any later time: VerifyFile finds a row for each place, and says OK
      exactly when the file is not empty and none of the reads for those rows was cut short. */
  lemma OkTellsReads(s0: State, j: nat, o: Order, c: nat, steps: seq<Step>, more: seq<Step>, rows: seq<Row>,
                     chunks: seq<Row>, ids: seq<nat>, got: seq<Option<seq<byte>>>, sha: Digest)
    requires Inv(s0) && Fresh(s0, j, o) && WellPlanned(o, c) && Completes(Started(s0, j, o), j, steps)
    requires IsRun(After(Started(s0, j, o), steps), more)
    requires var s := After(After(Started(s0, j, o), steps), more);
             Lists(s, o.file, rows) && Picks(s, o.file, chunks, ids) && AllGot(s, o.file, chunks, got)
    requires |chunks| == |FirstCompleted(rows)| && (sha == NoSum || sha == Sha256(o.content))
    ensures Contiguous(FirstCompleted(rows).Keys) && |got| == |chunks|
    ensures Passes(chunks, got, |o.content|, sha)
        <==> o.content != [] && WholeRun(Started(s0, j, o), steps, IdSet(ids))
  {
    var s1 := Started(s0, j, o);
    var s := After(After(s1, steps), more);
    OrderOwnsFile(s0, j, o);
    CompletesIs(s1, j, steps);
    hide *;
    RunStoresAll(s0, j, o, steps);
    AllStoredStays(After(s1, steps), o, more, {});
    PickedAreContiguous(s, o, c, rows);
    UpToIsContiguous(FirstCompleted(rows), PartCount(|o.content|, c));
    PicksPlaced(s, o, c, chunks, ids);
    PlacedCuts(chunks, o.content, c);
    OkIsWhole(s, o, chunks, ids, got, sha);
    AllWholeIs(s, o.file, chunks, ids, o.content, c);
    StartStores(s0, j, o);
    PickedWithin(s, o, chunks, ids);
    AllStoredStays(After(s1, steps), o, more, IdSet(ids));
    WholeLess(s1, o.parts.Keys, IdSet(ids));
    StoredTellsReads(s1, steps, j, IdSet(ids));
  }

  lemma UpToIsContiguous(m: map<nat, Row>, n: nat)
    requires m.Keys == UpTo(n)
    ensures Contiguous(m.Keys) && |m| == n
  {
    assert |m| == |m.Keys|;
  }
}
