/** VerifyFile: is a file recoverable? Every part is fetched again, checked against its sum,
    and the whole put together is checked against the file's size and sum. */
module Verify {
  import opened Wrappers
  import opened Bytes
  import opened Collections
  import opened Sorting
  import opened Upload

  // ----- completedChunksForFile -----

  /** The first completed row of each index. */
  function FirstCompleted(rows: seq<Row>): map<nat, Row> {
    if rows == [] then map[]
    else
      var before, last := FirstCompleted(rows[..|rows| - 1]), rows[|rows| - 1];
      if last.status == Completed && last.index !in before then before[last.index := last] else before
  }

  lemma {:induction false} FirstCompletedIs(rows: seq<Row>, i: nat)
    ensures i in FirstCompleted(rows) <==>
            exists k :: 0 <= k < |rows| && rows[k].status == Completed && rows[k].index == i
    ensures i in FirstCompleted(rows) ==>
              exists k :: 0 <= k < |rows|
                && FirstCompleted(rows)[i] == rows[k] && rows[k].status == Completed && rows[k].index == i
                && forall j :: 0 <= j < k && rows[j].status == Completed ==> rows[j].index != i
  {
    if rows != [] {
      var front, n := rows[..|rows| - 1], |rows| - 1;
      FirstCompletedIs(front, i);
      assert forall k :: 0 <= k < n ==> front[k] == rows[k];
      if i in FirstCompleted(front) {
        var k :| 0 <= k < |front| && FirstCompleted(front)[i] == front[k] && front[k].status == Completed &&
          front[k].index == i
          && forall j :: 0 <= j < k && front[j].status == Completed ==> front[j].index != i;
        assert FirstCompleted(rows)[i] == rows[k];
      } else if rows[n].status == Completed && rows[n].index == i {
        assert FirstCompleted(rows)[i] == rows[n];
      }
    }
  }

  /** The least number a set lacks. */
  ghost predicate FirstGap(keys: set<nat>, i: nat) {
    i !in keys && forall j :: 0 <= j < i ==> j in keys
  }

  /** The rows in index order, or the first index that is missing. */
  method CompletedChunksForFile(rows: seq<Row>) returns (r: Result<seq<Row>, nat>)
    ensures r.Ok? <==> Contiguous(FirstCompleted(rows).Keys)
    ensures r.Ok? ==>
              && |r.value| == |FirstCompleted(rows)|
              && forall i :: 0 <= i < |r.value| ==> i in FirstCompleted(rows) && r.value[i] == FirstCompleted(rows)[i]
    ensures r.Err? ==>
              FirstGap(FirstCompleted(rows).Keys, r.error) && exists k :: k in FirstCompleted(rows) && k > r.error
  {
    hide *;
    var byIndex := GatherCompleted(rows);
    var sorted := SortKeys(byIndex.Keys);
    var out: seq<Row> := [];
    for i := 0 to |sorted|
      invariant |out| == i && forall j :: 0 <= j < i ==> sorted[j] == j && j in byIndex && out[j] == byIndex[j]
    {
      SortedIn(sorted, byIndex.Keys, i);
      if sorted[i] != i {
        GapAt(byIndex.Keys, sorted, i);
        return Err(i);
      }
      out := out + [byIndex[sorted[i]]];
    }
    KeysAre(byIndex.Keys, sorted);
    assert |byIndex.Keys| == |byIndex|;
    r := Ok(out);
  }

  method GatherCompleted(rows: seq<Row>) returns (byIndex: map<nat, Row>)
    ensures byIndex == FirstCompleted(rows)
  {
    byIndex := map[];
    for k := 0 to |rows|
      invariant byIndex == FirstCompleted(rows[..k])
    {
      assert rows[..k + 1][..k] == rows[..k];
      if rows[k].status == Completed && rows[k].index !in byIndex {
        byIndex := byIndex[rows[k].index := rows[k]];
      }
    }
    assert rows[..|rows|] == rows;
  }

  lemma SortedIn(sorted: seq<nat>, keys: set<nat>, i: nat)
    requires Sorts(sorted, keys) && i < |sorted|
    ensures sorted[i] in keys
  {
    assert sorted[i] in sorted;
  }

  lemma GapAt(keys: set<nat>, sorted: seq<nat>, i: nat)
    requires Sorts(sorted, keys) && i < |sorted| == |keys| && sorted[i] != i
    requires forall j :: 0 <= j < i ==> sorted[j] == j
    ensures FirstGap(keys, i) && sorted[i] in keys && sorted[i] > i && !Contiguous(keys)
  {
    assert i > 0 ==> sorted[i - 1] < sorted[i];
    forall k | 0 <= k < |sorted| ensures sorted[k] != i {
      assert k > i ==> sorted[i] < sorted[k];
    }
    forall j | 0 <= j < i ensures j in keys {
      assert sorted[j] in sorted;
    }
    assert i !in keys && sorted[i] in sorted;
  }

  lemma KeysAre(keys: set<nat>, sorted: seq<nat>)
    requires Sorts(sorted, keys) && |sorted| == |keys| && forall j :: 0 <= j < |sorted| ==> sorted[j] == j
    ensures Contiguous(keys)
  {
    forall i: nat ensures i in keys <==> i < |keys| {
      if i < |keys| {
        assert sorted[i] in keys;
      }
    }
  }

  // ----- VerifyFile -----

  datatype Verdict = Unchecked | Verdict(index: nat, expected: Digest, actual: Digest, ok: bool)

  datatype Report = Report(ok: bool, actualSize: nat, actualHash: Digest, chunks: seq<Verdict>)

  function Judge(chunk: Row, got: Option<seq<byte>>): Verdict {
    match got
    case None => Verdict(chunk.index, chunk.sha, NoSum, false)
    case Some(dec) => Verdict(chunk.index, chunk.sha, Sha256(dec), chunk.sha == NoSum || Sha256(dec) == chunk.sha)
  }

  /** The plaintexts that passed, in part order. */
  function Passed(chunks: seq<Row>, got: seq<Option<seq<byte>>>): seq<byte>
    requires |got| == |chunks|
  {
    if chunks == [] then []
    else
      var n := |chunks| - 1;
      Passed(chunks[..n], got[..n]) + if Judge(chunks[n], got[n]).ok then got[n].value else []
  }

  /** The workers take the parts from a channel and fill in the verdicts in any order. Each
      part is fetched once; got is what that fetch yields. */
  method JudgeAll(chunks: seq<Row>, got: seq<Option<seq<byte>>>, order: seq<nat>) returns (verdicts: array<Verdict>)
    requires |got| == |chunks|
    requires forall m :: 0 <= m < |order| ==> order[m] < |chunks|
    requires forall i: nat :: i < |chunks| ==> i in order
    ensures fresh(verdicts) && verdicts.Length == |chunks|
    ensures forall i :: 0 <= i < |chunks| ==> verdicts[i] == Judge(chunks[i], got[i])
  {
    verdicts := new Verdict[|chunks|](_ => Unchecked);
    for m := 0 to |order|
      invariant forall l :: 0 <= l < m ==> verdicts[order[l]] == Judge(chunks[order[l]], got[order[l]])
    {
      verdicts[order[m]] := Judge(chunks[order[m]], got[order[m]]);
    }
    forall i: nat | i < |chunks| ensures verdicts[i] == Judge(chunks[i], got[i]) {
      assert i in order;
      var l :| 0 <= l < |order| && order[l] == i;
    }
  }

  ghost predicate AllPass(chunks: seq<Row>, got: seq<Option<seq<byte>>>)
    requires |got| == |chunks|
  {
    forall i :: 0 <= i < |chunks| ==> Judge(chunks[i], got[i]).ok
  }

  method VerifyFile(chunks: seq<Row>, got: seq<Option<seq<byte>>>, order: seq<nat>, size: nat, sha: Digest)
    returns (r: Report)
    requires |got| == |chunks|
    requires forall m :: 0 <= m < |order| ==> order[m] < |chunks|
    requires forall i: nat :: i < |chunks| ==> i in order
    ensures r.ok <==>
            AllPass(chunks, got) && |Passed(chunks, got)| == size &&
              (sha == NoSum || Sha256(Passed(chunks, got)) == sha)
    ensures r.actualSize == |Passed(chunks, got)| && r.actualHash == Sha256(Passed(chunks, got))
    ensures |r.chunks| == |chunks| && forall i :: 0 <= i < |chunks| ==> r.chunks[i] == Judge(chunks[i], got[i])
  {
    var verdicts := JudgeAll(chunks, got, order);
    var allOK, total := true, 0;
    var h: seq<byte> := [];
    for i := 0 to |chunks|
      invariant forall j :: 0 <= j < |chunks| ==> verdicts[j] == Judge(chunks[j], got[j])
      invariant allOK <==> forall j :: 0 <= j < i ==> Judge(chunks[j], got[j]).ok
      invariant h == Passed(chunks[..i], got[..i]) && total == |h|
    {
      assert chunks[..i + 1][..i] == chunks[..i] && got[..i + 1][..i] == got[..i];
      if !verdicts[i].ok {
        allOK := false;
      } else {
        h := h + got[i].value;
        total := total + |got[i].value|;
      }
    }
    assert chunks[..|chunks|] == chunks && got[..|got|] == got;
    var hash := Sha256(h);
    if sha != NoSum && hash != sha {
      allOK := false;
    }
    if total != size {
      allOK := false;
    }
    r := Report(allOK, total, hash, verdicts[..]);
  }

  // ----- what an OK is worth -----

  ghost predicate Passes(chunks: seq<Row>, got: seq<Option<seq<byte>>>, size: nat, sha: Digest)
    requires |got| == |chunks|
  {
    AllPass(chunks, got) && |Passed(chunks, got)| == size && (sha == NoSum || Sha256(Passed(chunks, got)) == sha)
  }

  function Joined(got: seq<Option<seq<byte>>>): seq<byte> {
    if got == [] then []
    else Joined(got[..|got| - 1]) + if got[|got| - 1].Some? then got[|got| - 1].value else []
  }

  lemma {:induction false} PassedIsJoined(chunks: seq<Row>, got: seq<Option<seq<byte>>>)
    requires |got| == |chunks| && AllPass(chunks, got)
    ensures Passed(chunks, got) == Joined(got)
  {
    if chunks != [] {
      var n := |chunks| - 1;
      assert AllPass(chunks[..n], got[..n]);
      PassedIsJoined(chunks[..n], got[..n]);
      assert Judge(chunks[n], got[n]).ok;
    }
  }

  /** With the file's own sum on record, OK means that the parts put together are the file. */
  lemma OkIsTheFile(chunks: seq<Row>, got: seq<Option<seq<byte>>>, file: seq<byte>)
    requires |got| == |chunks| && Passes(chunks, got, |file|, Sha256(file))
    ensures Joined(got) == file
  {
    PassedIsJoined(chunks, got);
  }

  /** The pieces of the file that the parts stand for. */
  ghost predicate Cuts(chunks: seq<Row>, file: seq<byte>) {
    && (forall i :: 0 <= i < |chunks| ==> chunks[i].offset == End(chunks, i))
    && End(chunks, |chunks|) == |file|
  }

  function End(chunks: seq<Row>, k: nat): nat
    requires k <= |chunks|
  {
    if k == 0 then 0 else End(chunks, k - 1) + chunks[k - 1].size
  }

  lemma {:induction false} EndGrows(chunks: seq<Row>, k: nat, n: nat)
    requires k <= n <= |chunks|
    ensures End(chunks, k) <= End(chunks, n)
  {
    if k < n {
      EndGrows(chunks, k, n - 1);
    }
  }

  function Piece(chunks: seq<Row>, file: seq<byte>, i: nat): seq<byte>
    requires i < |chunks| && Cuts(chunks, file)
  {
    EndGrows(chunks, i + 1, |chunks|);
    file[End(chunks, i)..End(chunks, i + 1)]
  }

  ghost predicate PrefixesGot(chunks: seq<Row>, got: seq<Option<seq<byte>>>, file: seq<byte>)
    requires |got| == |chunks| && Cuts(chunks, file)
  {
    forall i :: 0 <= i < |chunks| ==> got[i].Some? ==> got[i].value <= Piece(chunks, file, i)
  }

  ghost predicate WholeGot(chunks: seq<Row>, got: seq<Option<seq<byte>>>, file: seq<byte>)
    requires |got| == |chunks| && Cuts(chunks, file)
  {
    forall i :: 0 <= i < |chunks| ==> got[i] == Some(Piece(chunks, file, i))
  }

  lemma PrefixLength(chunks: seq<Row>, got: seq<Option<seq<byte>>>, file: seq<byte>, i: nat)
    requires |got| == |chunks| && Cuts(chunks, file) && PrefixesGot(chunks, got, file) && i < |chunks|
    ensures got[i].Some? ==> |got[i].value| <= chunks[i].size
    ensures got[i].Some? && |got[i].value| == chunks[i].size ==> got[i].value == Piece(chunks, file, i)
    ensures |Piece(chunks, file, i)| == chunks[i].size
  {
    EndGrows(chunks, i + 1, |chunks|);
  }

  lemma JoinedSnoc(got: seq<Option<seq<byte>>>, k: nat)
    requires k < |got|
    ensures Joined(got[..k + 1]) == Joined(got[..k]) + if got[k].Some? then got[k].value else []
  {
    assert got[..k + 1][..k] == got[..k];
  }

  lemma JoinedNone(got: seq<Option<seq<byte>>>)
    ensures Joined(got[..0]) == []
  {
  }

  ghost predicate FullUpTo(chunks: seq<Row>, got: seq<Option<seq<byte>>>, k: nat)
    requires k <= |got| == |chunks|
  {
    forall i :: 0 <= i < k && got[i].Some? ==> |got[i].value| == chunks[i].size
  }

  lemma {:induction false} JoinedLength(chunks: seq<Row>, got: seq<Option<seq<byte>>>, file: seq<byte>, k: nat)
    requires |got| == |chunks| && Cuts(chunks, file) && PrefixesGot(chunks, got, file) && k <= |chunks|
    ensures |Joined(got[..k])| <= End(chunks, k)
    ensures |Joined(got[..k])| == End(chunks, k) ==> FullUpTo(chunks, got, k)
  {
    hide Joined, Cuts, PrefixesGot;
    if k > 0 {
      JoinedLength(chunks, got, file, k - 1);
      JoinedSnoc(got, k - 1);
      PrefixLength(chunks, got, file, k - 1);
    } else {
      JoinedNone(got);
    }
  }

  lemma {:induction false} JoinedWhole(chunks: seq<Row>, got: seq<Option<seq<byte>>>, file: seq<byte>, k: nat)
    requires |got| == |chunks| && Cuts(chunks, file) && WholeGot(chunks, got, file) && k <= |chunks|
    ensures End(chunks, k) <= |file| && Joined(got[..k]) == file[..End(chunks, k)]
  {
    EndGrows(chunks, k, |chunks|);
    if k > 0 {
      JoinedWhole(chunks, got, file, k - 1);
      JoinedSnoc(got, k - 1);
      var a, b := End(chunks, k - 1), End(chunks, k);
      assert a <= b <= |file| && got[k - 1] == Some(file[a..b]);
      hide *;
      TakePlusSlice(file, a, b);
    }
  }

  lemma TakePlusSlice(s: seq<byte>, a: nat, b: nat)
    requires a <= b <= |s|
    ensures s[..a] + s[a..b] == s[..b]
  {
  }

  /** Stored parts are pieces of the file, perhaps cut short, and their sums are of what is
      stored. Then OK means that every part came back whole, with or without a sum of the
      file on record, and every whole set of parts gets an OK. */
  lemma OkMeansWhole(chunks: seq<Row>, got: seq<Option<seq<byte>>>, file: seq<byte>, sha: Digest)
    requires |got| == |chunks| && Cuts(chunks, file) && PrefixesGot(chunks, got, file)
    requires sha == NoSum || sha == Sha256(file)
    requires forall i :: 0 <= i < |chunks| && got[i].Some? ==>
               chunks[i].sha == NoSum || chunks[i].sha == Sha256(got[i].value)
    ensures Passes(chunks, got, |file|, sha) <==> WholeGot(chunks, got, file)
  {
    if WholeGot(chunks, got, file) {
      WholePasses(chunks, got, file, sha);
    }
    if Passes(chunks, got, |file|, sha) {
      PassesIsWhole(chunks, got, file, sha);
    }
  }

  lemma WholePasses(chunks: seq<Row>, got: seq<Option<seq<byte>>>, file: seq<byte>, sha: Digest)
    requires |got| == |chunks| && Cuts(chunks, file) && WholeGot(chunks, got, file)
    requires sha == NoSum || sha == Sha256(file)
    requires forall i :: 0 <= i < |chunks| && got[i].Some? ==>
               chunks[i].sha == NoSum || chunks[i].sha == Sha256(got[i].value)
    ensures Passes(chunks, got, |file|, sha)
  {
    JoinedWhole(chunks, got, file, |chunks|);
    assert got[..|got|] == got && file[..|file|] == file;
    forall i | 0 <= i < |chunks| ensures Judge(chunks[i], got[i]).ok {
      assert got[i] == Some(Piece(chunks, file, i));
    }
    PassedIsJoined(chunks, got);
    hide Joined, WholeGot, Passed, Piece, End;
  }

  lemma PassesIsWhole(chunks: seq<Row>, got: seq<Option<seq<byte>>>, file: seq<byte>, sha: Digest)
    requires |got| == |chunks| && Cuts(chunks, file) && PrefixesGot(chunks, got, file)
    requires Passes(chunks, got, |file|, sha)
    ensures WholeGot(chunks, got, file)
  {
    PassedIsJoined(chunks, got);
    assert got[..|got|] == got;
    JoinedLength(chunks, got, file, |chunks|);
    forall i: nat | i < |chunks| ensures got[i] == Some(Piece(chunks, file, i)) {
      hide Joined, Passed, Piece, PrefixesGot;
      PrefixLength(chunks, got, file, i);
    }
  }
}
