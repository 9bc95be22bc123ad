/** fetchSingleChunk: finding the attachment of a part row again and guessing the additional
    data it was sealed under, over every state the upload engine can reach. */
module Recovery {
  import opened Wrappers
  import opened Bytes
  import opened Text
  import opened Upload
  import opened UploadRuns
  import opened WholeReads

  datatype FetchError = Unavailable | Locked

  /** DecryptChunk under the right key: it opens under the data it was sealed with. */
  function Decrypt(blob: Blob, aad: string): Option<seq<byte>> {
    if blob.aad == aad then Some(blob.plain) else None
  }

  /** A FindChunksByHash answer: the completed rows with the sum, in any order. */
  ghost predicate Answers(s: State, sha: Digest, rows: seq<Row>) {
    forall o :: o in rows <==> HasHash(o, sha) && exists r :: r in s.rows && s.rows[r] == o
  }

  function Aads(rows: seq<Row>): seq<string> {
    if rows == [] then [] else [Aad(rows[0].file, rows[0].index)] + Aads(rows[1..])
  }

  /** The additional data fetchSingleChunk tries, in its order. */
  function Candidates(fileID: string, chunk: Row, origs: seq<Row>): seq<string> {
    [Aad(fileID, chunk.index)]
    + (if chunk.file != "" && chunk.file != fileID then [Aad(chunk.file, chunk.index)] else [])
    + (if chunk.sha != NoSum then Aads(origs) else [])
    + ["discord_chunk_v1", "chunk:" + Decimal(chunk.index), ""]
  }

  /** What the attachment host still serves of a row: the link it was seen under, or the
      message it hangs on. */
  function Downloaded(store: map<nat, Blob>, chunk: Row, linkUp: bool, messageUp: bool): Option<Blob> {
    if chunk.url.LinkTo? && linkUp && chunk.url.message in store then Some(store[chunk.url.message])
    else if chunk.place.Message? && messageUp && chunk.place.id in store then Some(store[chunk.place.id])
    else None
  }

  function Opened(blob: Option<Blob>, aads: seq<string>): Result<seq<byte>, FetchError> {
    match blob
    case None => Err(Unavailable)
    case Some(b) => if b.aad in aads && b.plain != [] then Ok(b.plain) else Err(Locked)
  }

  /** What fetchSingleChunk makes of a part row. */
  function Fetched(store: map<nat, Blob>, fileID: string, chunk: Row, origs: seq<Row>, linkUp: bool, messageUp: bool)
    : Result<seq<byte>, FetchError>
  {
    Opened(Downloaded(store, chunk, linkUp, messageUp), Candidates(fileID, chunk, origs))
  }

  method ListCandidates(fileID: string, chunk: Row, origs: seq<Row>) returns (aads: seq<string>)
    ensures aads == Candidates(fileID, chunk, origs)
  {
    aads := [Aad(fileID, chunk.index)];
    if chunk.file != "" && chunk.file != fileID {
      aads := aads + [Aad(chunk.file, chunk.index)];
    }
    if chunk.sha != NoSum {
      ghost var own := aads;
      for i := 0 to |origs|
        invariant aads == own + Aads(origs[..i])
      {
        AadsSnoc(origs, i);
        aads := aads + [Aad(origs[i].file, origs[i].index)];
      }
      assert origs[..|origs|] == origs;
    }
    hide Aad, Aads;
    aads := aads + ["discord_chunk_v1"];
    aads := aads + ["chunk:" + Decimal(chunk.index)];
    aads := aads + [""];
  }

  /** The loop over the candidates; an empty plaintext counts as a failure to open. */
  method TryCandidates(blob: Blob, aads: seq<string>) returns (r: Result<seq<byte>, FetchError>)
    ensures r == Opened(Some(blob), aads)
  {
    for i := 0 to |aads|
      invariant blob.aad !in aads[..i] || blob.plain == []
    {
      var dec := Decrypt(blob, aads[i]);
      if dec.Some? && |dec.value| > 0 {
        return Ok(dec.value);
      }
    }
    r := Err(Locked);
  }

  method FetchSingleChunk(store: map<nat, Blob>, fileID: string, chunk: Row, origs: seq<Row>, linkUp: bool,
                          messageUp: bool)
    returns (r: Result<seq<byte>, FetchError>)
    ensures r == Fetched(store, fileID, chunk, origs, linkUp, messageUp)
  {
    var blob := Downloaded(store, chunk, linkUp, messageUp);
    if blob.None? {
      return Err(Unavailable);
    }
    var aads := ListCandidates(fileID, chunk, origs);
    r := TryCandidates(blob.value, aads);
  }

  lemma {:induction false} AadsSnoc(rows: seq<Row>, i: nat)
    requires i < |rows|
    ensures Aads(rows[..i + 1]) == Aads(rows[..i]) + [Aad(rows[i].file, rows[i].index)]
  {
    assert rows[..i + 1][1..] == rows[1..][..i];
    if i > 0 {
      assert rows[..i][1..] == rows[1..][..i - 1];
      AadsSnoc(rows[1..], i - 1);
    }
  }

  lemma {:induction false} AadsIn(rows: seq<Row>, o: Row)
    requires o in rows
    ensures Aad(o.file, o.index) in Aads(rows)
  {
    if o != rows[0] {
      AadsIn(rows[1..], o);
    }
  }

  // ----- every completed row opens -----

  /** In any reachable state, whatever file id the reader asks under, in whatever order the
      rows with the sum come back, and whichever of the two ways to the attachment is up:
      a completed row yields the bytes read for it, if there were any. */
  lemma SoundRowOpens(s: State, fileID: string, r: Row, origs: seq<Row>, linkUp: bool, messageUp: bool)
    requires RowSound(s, r) && r.status == Completed && Answers(s, r.sha, origs) && (linkUp || messageUp)
    ensures Fetched(s.store, fileID, r, origs, linkUp, messageUp) ==
              if r.sha.of != [] then Ok(r.sha.of) else Err(Locked)
  {
    var o :| o in s.rows && SealedBy(s, s.rows[o], r);
    assert s.rows[o] in origs;
    AadsIn(origs, s.rows[o]);
    assert Downloaded(s.store, r, linkUp, messageUp) == Some(s.store[r.place.id]);
  }

  lemma StoredPartOpens(steps: seq<Step>, k: nat, fileID: string, origs: seq<Row>, linkUp: bool, messageUp: bool)
    requires IsRun(EMPTY, steps) && k in After(EMPTY, steps).rows && (linkUp || messageUp)
    requires var s := After(EMPTY, steps); s.rows[k].status == Completed && Answers(s, s.rows[k].sha, origs)
    ensures var s := After(EMPTY, steps); var r := s.rows[k];
            var got := Fetched(s.store, fileID, r, origs, linkUp, messageUp);
            && r.sha.Sha256? && r.sha.of <= Plain(s, r) && |Plain(s, r)| == r.size
            && got == (if r.sha.of != [] then Ok(r.sha.of) else Err(Locked))
            && (got == Ok(Plain(s, r)) <==> |r.sha.of| == r.size > 0)
  {
    EmptyInv();
    RunKeeps(EMPTY, steps);
    hide IsRun, After, Fetched;
    var s := After(EMPTY, steps);
    assert RowSound(s, s.rows[k]);
    SoundRowOpens(s, fileID, s.rows[k], origs, linkUp, messageUp);
    PrefixIsWhole(s.rows[k].sha.of, Plain(s, s.rows[k]));
    hide *;
  }

  lemma PrefixIsWhole(a: seq<byte>, b: seq<byte>)
    requires a <= b
    ensures a == b <==> |a| == |b|
  {
  }

  // ----- whole reads -----

  /** When the reads of a part were whole, its completed row yields exactly its bytes of the
      file in every reachable state; but a row of no bytes is never opened. */
  lemma EveryPartOpens(steps: seq<Step>, k: nat, fileID: string, origs: seq<Row>, linkUp: bool, messageUp: bool)
    requires IsRun(EMPTY, steps) && WholeRun(EMPTY, steps, {k}) && k in After(EMPTY, steps).rows &&
             (linkUp || messageUp)
    requires var s := After(EMPTY, steps); s.rows[k].status == Completed && Answers(s, s.rows[k].sha, origs)
    ensures var s := After(EMPTY, steps); var r := s.rows[k];
            && Fetched(s.store, fileID, r, origs, linkUp, messageUp)
               == (if r.size > 0 then Ok(Plain(s, r)) else Err(Locked))
            && r.sha == Sha256(Plain(s, r)) && r.file in s.files
            && r.offset + r.size <= |s.files[r.file]| && Plain(s, r) == s.files[r.file][r.offset..r.offset + r.size]
  {
    hide *;
    EmptyInv();
    EmptyWhole({k});
    RunKeeps(EMPTY, steps);
    RunKeepsWhole(EMPTY, steps, {k});
    WholeAt(After(EMPTY, steps), k, {k});
    WholePartOpens(After(EMPTY, steps), k, fileID, origs, linkUp, messageUp);
  }

  lemma EmptyWhole(scope: set<nat>)
    ensures Whole(EMPTY, scope)
  {
  }

  lemma WholeAt(s: State, k: nat, scope: set<nat>)
    requires Whole(s, scope) && k in s.rows && k in scope
    ensures WholeRow(s.rows[k])
  {
  }

  lemma WholePartOpens(s: State, k: nat, fileID: string, origs: seq<Row>, linkUp: bool, messageUp: bool)
    requires Inv(s) && k in s.rows && WholeRow(s.rows[k]) && (linkUp || messageUp)
    requires s.rows[k].status == Completed && Answers(s, s.rows[k].sha, origs)
    ensures var r := s.rows[k];
            && Fetched(s.store, fileID, r, origs, linkUp, messageUp)
               == (if r.size > 0 then Ok(Plain(s, r)) else Err(Locked))
            && r.sha == Sha256(Plain(s, r)) && r.file in s.files
            && r.offset + r.size <= |s.files[r.file]| && Plain(s, r) == s.files[r.file][r.offset..r.offset + r.size]
  {
    hide Fetched, Answers, JobsOk, WorkersSound, Plain;
    assert RowSound(s, s.rows[k]);
    hide RowsSound;
    WholeRowOpens(s, s.rows[k]);
    SoundRowOpens(s, fileID, s.rows[k], origs, linkUp, messageUp);
  }

  lemma WholeRowOpens(s: State, r: Row)
    requires RowSound(s, r) && WholeRow(r) && r.status == Completed
    ensures r.sha == Sha256(Plain(s, r)) && r.file in s.files && |Plain(s, r)| == r.size
    ensures r.offset + r.size <= |s.files[r.file]| && Plain(s, r) == s.files[r.file][r.offset..r.offset + r.size]
  {
    PrefixIsWhole(r.sha.of, Plain(s, r));
  }

  // ----- deletion -----

  /** handleDelete for one file, once all its Discord deletions went through: its rows are
      gone, and so is every message they hang on. */
  ghost function Deleted(s: State, file: string): State {
    s.(rows := map r | r in s.rows && s.rows[r].file != file :: s.rows[r],
       store := map m | m in s.store && !HangsOn(s, file, m) :: s.store[m])
  }

  ghost predicate HangsOn(s: State, file: string, message: nat) {
    exists r :: r in s.rows && s.rows[r].file == file && s.rows[r].place == Message(message)
  }

  /** Messages are deleted without counting references: another file's stored part survives
      exactly when it shares no attachment with the deleted file. */
  lemma DeleteSpares(steps: seq<Step>, file: string, k: nat, fileID: string, origs: seq<Row>, linkUp: bool,
                     messageUp: bool)
    requires IsRun(EMPTY, steps) && k in After(EMPTY, steps).rows && (linkUp || messageUp)
    requires var r := After(EMPTY, steps).rows[k];
             r.file != file && r.status == Completed && Answers(Deleted(After(EMPTY, steps), file), r.sha, origs)
    ensures var s := After(EMPTY, steps); var r := s.rows[k];
            var got := Fetched(Deleted(s, file).store, fileID, r, origs, linkUp, messageUp);
            && r.sha.Sha256? && r.place.Message?
            && got == (if HangsOn(s, file, r.place.id) then Err(Unavailable)
                       else if r.sha.of == [] then Err(Locked) else Ok(r.sha.of))
  {
    hide *;
    EmptyInv();
    RunKeeps(EMPTY, steps);
    SoundRow(After(EMPTY, steps), k);
    FetchedAfterDelete(After(EMPTY, steps), file, After(EMPTY, steps).rows[k], fileID, origs, linkUp, messageUp);
  }

  lemma SoundRow(s: State, k: nat)
    requires Inv(s) && k in s.rows
    ensures RowSound(s, s.rows[k])
  {
  }

  lemma FetchedAfterDelete(s: State, file: string, r: Row, fileID: string, origs: seq<Row>, linkUp: bool,
                           messageUp: bool)
    requires RowSound(s, r) && r.file != file && r.status == Completed && (linkUp || messageUp)
    requires Answers(Deleted(s, file), r.sha, origs)
    ensures r.sha.Sha256? && r.place.Message?
    ensures Fetched(Deleted(s, file).store, fileID, r, origs, linkUp, messageUp)
         == (if HangsOn(s, file, r.place.id) then Err(Unavailable)
             else if r.sha.of == [] then Err(Locked) else Ok(r.sha.of))
  {
    hide Candidates;
    if !HangsOn(s, file, r.place.id) {
      SoundAfterDelete(s, file, r);
      hide Fetched, Deleted, HangsOn, Answers;
      SoundRowOpens(Deleted(s, file), fileID, r, origs, linkUp, messageUp);
    } else {
      assert Downloaded(Deleted(s, file).store, r, linkUp, messageUp) == None;
    }
  }

  lemma SoundAfterDelete(s: State, file: string, r: Row)
    requires RowSound(s, r) && r.file != file && r.status == Completed && !HangsOn(s, file, r.place.id)
    ensures RowSound(Deleted(s, file), r)
  {
    var o :| o in s.rows && SealedBy(s, s.rows[o], r);
    assert SealedBy(Deleted(s, file), s.rows[o], r);
    assert o in Deleted(s, file).rows;
  }
}
