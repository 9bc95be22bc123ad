/** Which parts a download reads, which slices of them it sends, and what a byte-range
    request (RFC 9110, section 14.1.2) is answered with. */
module Ranges {
  import opened Bytes
  import opened Collections
  import opened OrderedWriter

  // ----- choosing one row for each part -----

  /** The first row of each part index, as the loop over the rows leaves them in its map. */
  function FirstRows(rows: seq<Part>): map<nat, Part> {
    if rows == [] then map[]
    else
      var m, r := FirstRows(rows[..|rows| - 1]), rows[|rows| - 1];
      if r.index in m then m else m[r.index := r]
  }

  /** The rows with indexes below n, in order. */
  function InOrder(m: map<nat, Part>, n: nat): seq<Part> {
    if n == 0 then [] else InOrder(m, n - 1) + (if n - 1 in m then [m[n - 1]] else [])
  }

  function Selected(rows: seq<Part>): seq<Part> {
    InOrder(FirstRows(rows), |FirstRows(rows)|)
  }

  method SelectRows(rows: seq<Part>) returns (chunkMap: map<nat, Part>, chunks: seq<Part>)
    ensures chunkMap == FirstRows(rows) && chunks == Selected(rows)
  {
    chunkMap := map[];
    for k := 0 to |rows|
      invariant chunkMap == FirstRows(rows[..k])
    {
      assert rows[..k + 1][..k] == rows[..k];
      if rows[k].index !in chunkMap {
        chunkMap := chunkMap[rows[k].index := rows[k]];
      }
    }
    assert rows[..|rows|] == rows;
    chunks := [];
    for i := 0 to |chunkMap|
      invariant chunks == InOrder(chunkMap, i)
    {
      if i in chunkMap {
        chunks := chunks + [chunkMap[i]];
      }
    }
  }

  lemma {:induction false} FirstRowsAreRows(rows: seq<Part>)
    ensures forall i :: i in FirstRows(rows) ==> FirstRows(rows)[i] in rows && FirstRows(rows)[i].index == i
    ensures forall r :: r in rows ==> r.index in FirstRows(rows)
  {
    if rows != [] {
      FirstRowsAreRows(rows[..|rows| - 1]);
    }
  }

  lemma {:induction false} InOrderShape(m: map<nat, Part>, n: nat)
    requires forall i :: i in m ==> m[i].index == i
    ensures var s := InOrder(m, n);
      && |s| <= n
      && (forall j, k :: 0 <= j < k < |s| ==> s[j].index < s[k].index)
      && (forall k :: 0 <= k < |s| ==> k <= s[k].index < n && s[k].index in m && s[k] == m[s[k].index])
      && (|s| == n <==> forall i :: 0 <= i < n ==> i in m)
      && (|s| == n ==> forall k :: 0 <= k < n ==> s[k].index == k)
  {
    if n > 0 {
      InOrderShape(m, n - 1);
    }
  }

  /** Compaction keeps every part exactly when the rows are contiguous, and then part i
      sits in place i. */
  lemma SelectedIsWholeIffContiguous(rows: seq<Part>)
    ensures |Selected(rows)| == |FirstRows(rows)| <==> Contiguous(FirstRows(rows).Keys)
    ensures Contiguous(FirstRows(rows).Keys) ==> forall i :: 0 <= i < |Selected(rows)| ==> Selected(rows)[i].index == i
  {
    var m := FirstRows(rows);
    FirstRowsAreRows(rows);
    InOrderShape(m, |m|);
    assert |m.Keys| == |m|;
    HasAllBelow(m.Keys);
  }

  /** The job of StreamDownload: turn i waits for the map entry i. */
  function FullJob(chunks: seq<Part>, size: nat): (job: Job)
    ensures |job.want| == |job.parts|
  {
    Job(chunks, seq(|chunks|, i => i), 0, size)
  }

  /** The job of StreamDownloadRange: each turn waits for its part's own index. */
  function RangeJob(chunks: seq<Part>, start: nat, end: nat): (job: Job)
    ensures |job.want| == |job.parts|
  {
    Job(chunks, seq(|chunks|, i requires 0 <= i < |chunks| => chunks[i].index), start, end)
  }

  lemma JobsAreValid(rows: seq<Part>, size: nat)
    ensures FullJob(Selected(rows), size).Valid()
    ensures FullJob(Selected(rows), size).Gapless() <==>
      forall i :: 0 <= i < |Selected(rows)| ==> Selected(rows)[i].index == i
  {
    FirstRowsAreRows(rows);
    InOrderShape(FirstRows(rows), |FirstRows(rows)|);
  }

  lemma FirstRowsOfThree(a: Part, b: Part, c: Part)
    requires a.index != b.index && a.index != c.index && b.index != c.index
    ensures FirstRows([a, b, c]) == map[a.index := a, b.index := b, c.index := c]
    ensures |FirstRows([a, b, c])| == 3
  {
    var rows := [a, b, c];
    assert rows[..2] == [a, b] && rows[..2][..1] == [a] && rows[..2][..1][..0] == [];
    assert FirstRows([a]) == map[a.index := a];
    assert FirstRows([a, b]) == map[a.index := a, b.index := b];
    assert FirstRows(rows).Keys == {a.index, b.index, c.index};
  }

  /** What a run that is over and in which nothing went wrong has sent. */
  ghost predicate SendsTwo(job: Job, workers: nat, a: Part, b: Part)
    requires |job.want| == |job.parts|
  {
    forall run :: QuietEnd(job, Init(workers), run) ==>
      var s := After(job, Init(workers), run);
      s.writer == Returned(Success) && s.out == Slice(job.start, job.end, a) + Slice(job.start, job.end, b)
  }

  /** Gaps do two kinds of harm: with parts 0, 2, 3 the download waits for ever, with
      parts 0, 1, 3 it ends as a success without part 3. */
  lemma GapsHurt(a: Part, b: Part, c: Part, size: nat, workers: nat)
    requires a.index == 0 && c.index == 3 && workers > 0
    ensures b.index == 2 ==> Hangs(FullJob(Selected([a, b, c]), size), workers)
    ensures b.index == 1 ==> SendsTwo(FullJob(Selected([a, b, c]), size), workers, a, b)
  {
    if b.index == 1 || b.index == 2 {
      SelectedOfThree(a, b, c);
      var job := FullJob(Selected([a, b, c]), size);
      JobsAreValid([a, b, c], size);
      DeliversExactlyWhenGapless(job, workers);
      if b.index == 1 {
        assert job.parts == [a, b];
        SentOfTwo(job, a, b);
      }
      hide Delivers, Hangs;
    }
  }

  lemma SelectedOfThree(a: Part, b: Part, c: Part)
    requires a.index == 0 && c.index == 3 && (b.index == 1 || b.index == 2)
    ensures Selected([a, b, c]) == [a, b]
  {
    FirstRowsOfThree(a, b, c);
    var m := FirstRows([a, b, c]);
    assert InOrder(m, 0) == [];
    assert InOrder(m, 1) == [a];
    assert InOrder(m, 2) == if b.index == 1 then [a, b] else [a];
    assert InOrder(m, 3) == [a, b];
  }

  lemma SentOfTwo(job: Job, a: Part, b: Part)
    requires job.parts == [a, b]
    ensures job.Sent(2) == Slice(job.start, job.end, a) + Slice(job.start, job.end, b)
  {
    hide Slice;
    assert job.Sent(1) == [] + job.Piece(0);
  }

  // ----- slices -----

  /** Parts cut a file into consecutive non-empty pieces, in order. */
  ghost predicate Tiles(parts: seq<Part>, file: seq<byte>) {
    && parts != [] && parts[0].offset == 0
    && (forall i :: 0 <= i < |parts| ==> TileOf(parts[i], i, file))
    && (forall i, j :: 0 <= i && j == i + 1 < |parts| ==> parts[j].offset == parts[i].offset + parts[i].size)
    && parts[|parts| - 1].offset + parts[|parts| - 1].size == |file|
  }

  ghost predicate TileOf(part: Part, i: nat, file: seq<byte>) {
    && part.index == i && 0 < part.size
    && part.offset + part.size <= |file|
    && part.data == file[part.offset..part.offset + part.size]
  }

  predicate Overlaps(part: Part, start: nat, end: nat) {
    part.offset + part.size - 1 >= start && part.offset <= end
  }

  function Needed(parts: seq<Part>, start: nat, end: nat): seq<Part> {
    if parts == [] then []
    else
      var before, last := Needed(parts[..|parts| - 1], start, end), parts[|parts| - 1];
      if Overlaps(last, start, end) then before + [last] else before
  }

  method SelectNeeded(chunks: seq<Part>, start: nat, end: nat) returns (needed: seq<Part>)
    ensures needed == Needed(chunks, start, end)
  {
    needed := [];
    for k := 0 to |chunks|
      invariant needed == Needed(chunks[..k], start, end)
    {
      assert chunks[..k + 1][..k] == chunks[..k];
      var chunkStart := chunks[k].offset;
      var chunkEnd := chunkStart + chunks[k].size - 1;
      if chunkEnd >= start && chunkStart <= end {
        needed := needed + [chunks[k]];
      }
    }
    assert chunks[..|chunks|] == chunks;
  }

  function Slices(parts: seq<Part>, start: nat, end: nat): seq<byte> {
    if parts == [] then [] else Slices(parts[..|parts| - 1], start, end) + Slice(start, end, parts[|parts| - 1])
  }

  lemma {:induction false} OffsetsGrow(parts: seq<Part>, file: seq<byte>, j: nat, k: nat)
    requires Tiles(parts, file) && j < k < |parts|
    ensures parts[j].offset + parts[j].size <= parts[k].offset
  {
    if j + 1 < k {
      OffsetsGrow(parts, file, j, k - 1);
    }
  }

  lemma SliceOfTile(parts: seq<Part>, file: seq<byte>, k: nat, start: nat, end: nat)
    requires Tiles(parts, file) && k < |parts| && start <= end < |file|
    ensures var lo, hi := Max(start, parts[k].offset), Min(end + 1, parts[k].offset + parts[k].size);
      && (Overlaps(parts[k], start, end) <==> lo < hi)
      && Slice(start, end, parts[k]) == if lo < hi then file[lo..hi] else []
  {
    assert TileOf(parts[k], k, file);
    hide Tiles, Slice;
    SliceOfPiece(parts[k], file, start, end);
  }

  lemma SliceOfPiece(part: Part, file: seq<byte>, start: nat, end: nat)
    requires 0 < part.size && part.offset + part.size <= |file|
    requires part.data == file[part.offset..part.offset + part.size]
    ensures var lo, hi := Max(start, part.offset), Min(end + 1, part.offset + part.size);
      Slice(start, end, part) == if lo < hi then file[lo..hi] else []
  {
    var o, n := part.offset, part.size;
    var lo, hi := Max(start, o), Min(end + 1, o + n);
    SliceBounds(part, start, end);
    hide Slice;
    if lo < hi {
      SliceOfSlice(file, o, n, lo - o, hi - o);
    }
  }

  lemma SliceBounds(part: Part, start: nat, end: nat)
    requires 0 < part.size == |part.data|
    ensures var lo, hi := Max(start, part.offset), Min(end + 1, part.offset + part.size);
      Slice(start, end, part) == if lo < hi then part.data[lo - part.offset..hi - part.offset] else []
  {
  }

  ghost predicate Covers(part: Part, at: nat) {
    part.offset <= at < part.offset + part.size
  }

  lemma OverlapsBetween(parts: seq<Part>, file: seq<byte>, k: nat, start: nat, end: nat, a: nat, b: nat)
    requires Tiles(parts, file) && k < |parts| && start <= end < |file| && a < |parts| && b < |parts|
    requires Covers(parts[a], start) && Covers(parts[b], end)
    ensures Overlaps(parts[k], start, end) <==> a <= k <= b
  {
    if k < a {
      OffsetsGrow(parts, file, k, a);
    } else if a < k {
      OffsetsGrow(parts, file, a, k);
    }
    if k < b {
      OffsetsGrow(parts, file, k, b);
    } else if b < k {
      OffsetsGrow(parts, file, b, k);
    }
  }

  /** The parts needed are consecutive: from the one with the first byte to the one with
      the last. */
  lemma {:induction false} NeededIsInterval(parts: seq<Part>, file: seq<byte>, k: nat, start: nat, end: nat, a: nat,
                                            b: nat)
    requires Tiles(parts, file) && k <= |parts| && start <= end < |file| && a <= b < |parts|
    requires Covers(parts[a], start) && Covers(parts[b], end)
    ensures Needed(parts[..k], start, end) == if k <= a then [] else parts[a..Min(k, b + 1)]
  {
    hide Tiles;
    if k > 0 {
      NeededIsInterval(parts, file, k - 1, start, end, a, b);
      OverlapsBetween(parts, file, k - 1, start, end, a, b);
      NeededNext(parts, k, start, end);
      hide *;
      if a < k <= b + 1 {
        SliceSnoc(parts, a, k);
        assert k - 1 == a ==> parts[a..a] == [];
      }
    }
  }

  lemma NeededNext(parts: seq<Part>, k: nat, start: nat, end: nat)
    requires 0 < k <= |parts|
    ensures Needed(parts[..k], start, end)
      == Needed(parts[..k - 1], start, end) + if Overlaps(parts[k - 1], start, end) then [parts[k - 1]] else []
  {
    hide Overlaps;
    assert parts[..k][..k - 1] == parts[..k - 1];
  }

  lemma Adjacent(parts: seq<Part>, file: seq<byte>, k: nat)
    requires Tiles(parts, file) && 0 < k < |parts|
    ensures parts[k].offset == parts[k - 1].offset + parts[k - 1].size
  {
  }

  /** What of part k lies in the range, when the range starts in part a. */
  lemma SliceInRange(parts: seq<Part>, file: seq<byte>, start: nat, end: nat, a: nat, k: nat)
    requires Tiles(parts, file) && start <= end < |file| && a <= k < |parts|
    requires Covers(parts[a], start) && parts[k].offset <= end
    ensures var lo, hi := if k == a then start else parts[k].offset, Min(end + 1, parts[k].offset + parts[k].size);
      start <= lo < hi <= |file| && Slice(start, end, parts[k]) == file[lo..hi]
  {
    assert TileOf(parts[k], k, file);
    hide Tiles;
    SliceOfTile(parts, file, k, start, end);
    hide Slice;
    if a < k {
      OffsetsGrow(parts, file, a, k);
    }
  }

  /** The slices of parts a..m-1 are the requested bytes up to where part m - 1 ends. */
  lemma {:induction false} SlicesOfInterval(parts: seq<Part>, file: seq<byte>, start: nat, end: nat, a: nat, m: nat,
                                            hi: nat)
    requires Tiles(parts, file) && start <= end < |file| && a < m <= |parts|
    requires Covers(parts[a], start)
    requires parts[m - 1].offset <= end && hi == Min(end + 1, parts[m - 1].offset + parts[m - 1].size)
    ensures start < hi <= |file| && Slices(parts[a..m], start, end) == file[start..hi]
    decreases m
  {
    hide Tiles, Slice, Slices;
    SliceInRange(parts, file, start, end, a, m - 1);
    if m - 1 > a {
      Adjacent(parts, file, m - 1);
      var o := parts[m - 1].offset;
      SlicesOfInterval(parts, file, start, end, a, m - 1, o);
      hide *;
      SlicesStep(parts, file, start, end, a, m, o, hi);
    } else {
      hide *;
      SlicesNone(start, end);
      assert parts[a..a] == [] && file[start..start] == [];
      SlicesStep(parts, file, start, end, a, m, start, hi);
    }
  }

  lemma SlicesStep(parts: seq<Part>, file: seq<byte>, start: nat, end: nat, a: nat, m: nat, o: nat, hi: nat)
    requires a < m <= |parts| && start <= o <= hi <= |file|
    requires Slices(parts[a..m - 1], start, end) == file[start..o] && Slice(start, end, parts[m - 1]) == file[o..hi]
    ensures Slices(parts[a..m], start, end) == file[start..hi]
  {
    hide *;
    SliceSnoc(parts, a, m);
    SlicesSnoc(parts[a..m - 1], parts[m - 1], start, end);
    SlicePlusSlice(file, start, o, hi);
  }

  lemma SlicesNone(start: nat, end: nat)
    ensures Slices([], start, end) == []
  {
  }

  lemma SlicesSnoc(before: seq<Part>, last: Part, start: nat, end: nat)
    ensures Slices(before + [last], start, end) == Slices(before, start, end) + Slice(start, end, last)
  {
    assert (before + [last])[..|before|] == before;
  }

  /** Some part holds any given byte. */
  lemma {:induction false} PartWithByte(parts: seq<Part>, file: seq<byte>, k: nat, at: nat) returns (a: nat)
    requires Tiles(parts, file) && 0 < k <= |parts| && at < parts[k - 1].offset + parts[k - 1].size
    ensures a < k && parts[a].offset <= at < parts[a].offset + parts[a].size
  {
    a := k - 1;
    assert parts[0].offset == 0;
    hide Tiles;
    if at < parts[k - 1].offset {
      assert k > 1;
      Adjacent(parts, file, k - 1);
      a := PartWithByte(parts, file, k - 1, at);
    }
  }

  lemma {:induction false} SentIsSlices(parts: seq<Part>, job: Job, k: nat)
    requires 0 < |parts| && job.parts == parts[1..] && job.start >= 0 && k < |parts| && job.end >= 0
    ensures Slice(job.start, job.end, parts[0]) + job.Sent(k) == Slices(parts[..k + 1], job.start, job.end)
  {
    hide Slice;
    if k == 0 {
      assert parts[..1] == [] + [parts[0]];
      SlicesNone(job.start, job.end);
      SlicesSnoc([], parts[0], job.start, job.end);
    } else {
      SentIsSlices(parts, job, k - 1);
      assert parts[..k + 1] == parts[..k] + [parts[k]] && parts[k] == job.parts[k - 1];
      SlicesSnoc(parts[..k], parts[k], job.start, job.end);
    }
  }

  /** What a range request sends of the parts it reads: the first part at once and the
      others through the pipeline. */
  function RangeSent(needed: seq<Part>, start: nat, end: nat): seq<byte>
    requires needed != []
  {
    Slice(start, end, needed[0]) + RangeJob(needed[1..], start, end).Sent(|needed| - 1)
  }

  /** A range request reads exactly the parts from the one with its first byte to the one
      with its last, and what it sends of them, the first part at once and the others
      through the pipeline, is exactly the bytes asked for. */
  lemma RangeIsExact(parts: seq<Part>, file: seq<byte>, start: nat, end: nat) returns (a: nat, b: nat)
    requires Tiles(parts, file) && start <= end < |file|
    ensures a <= b < |parts| && Covers(parts[a], start) && Covers(parts[b], end)
    ensures Needed(parts, start, end) == parts[a..b + 1]
    ensures RangeJob(parts[a..b + 1][1..], start, end).Valid() && RangeJob(parts[a..b + 1][1..], start, end).Gapless()
    ensures RangeSent(parts[a..b + 1], start, end) == file[start..end + 1]
  {
    hide *;
    LastTile(parts, file);
    a := PartWithByte(parts, file, |parts|, start);
    b := PartWithByte(parts, file, |parts|, end);
    CoversIs(parts[a], start);
    CoversIs(parts[b], end);
    RangeFromTo(parts, file, start, end, a, b);
  }

  lemma CoversIs(part: Part, at: nat)
    requires part.offset <= at < part.offset + part.size
    ensures Covers(part, at)
  {
  }

  lemma RangeFromTo(parts: seq<Part>, file: seq<byte>, start: nat, end: nat, a: nat, b: nat)
    requires Tiles(parts, file) && start <= end < |file| && a < |parts| && b < |parts|
    requires Covers(parts[a], start) && Covers(parts[b], end)
    ensures a <= b && Needed(parts, start, end) == parts[a..b + 1]
    ensures RangeJob(parts[a..b + 1][1..], start, end).Valid() && RangeJob(parts[a..b + 1][1..], start, end).Gapless()
    ensures RangeSent(parts[a..b + 1], start, end) == file[start..end + 1]
  {
    hide *;
    RangeParts(parts, file, start, end, a, b);
    RangeJobIsValid(parts, file, a + 1, b + 1, start, end);
    SlicesOfInterval(parts, file, start, end, a, b + 1, end + 1);
    RangeSends(parts[a..b + 1], start, end);
    assert parts[a..b + 1][1..] == parts[a + 1..b + 1];
  }

  lemma LastTile(parts: seq<Part>, file: seq<byte>)
    requires Tiles(parts, file)
    ensures parts != [] && parts[|parts| - 1].offset + parts[|parts| - 1].size == |file|
  {
  }

  lemma RangeParts(parts: seq<Part>, file: seq<byte>, start: nat, end: nat, a: nat, b: nat)
    requires Tiles(parts, file) && start <= end < |file| && a < |parts| && b < |parts|
    requires Covers(parts[a], start) && Covers(parts[b], end)
    ensures a <= b && Needed(parts, start, end) == parts[a..b + 1]
    ensures parts[b].offset <= end && end + 1 == Min(end + 1, parts[b].offset + parts[b].size)
  {
    if b < a {
      OffsetsGrow(parts, file, b, a);
    }
    hide Tiles, Needed;
    assert parts[..|parts|] == parts;
    NeededIsInterval(parts, file, |parts|, start, end, a, b);
  }

  lemma RangeSends(needed: seq<Part>, start: nat, end: nat)
    requires needed != []
    ensures RangeSent(needed, start, end) == Slices(needed, start, end)
  {
    SentIsSlices(needed, RangeJob(needed[1..], start, end), |needed| - 1);
    hide Slices, Slice;
    assert needed[..|needed|] == needed;
  }

  lemma RangeJobIsValid(parts: seq<Part>, file: seq<byte>, lo: nat, hi: nat, start: nat, end: nat)
    requires Tiles(parts, file) && lo <= hi <= |parts|
    ensures RangeJob(parts[lo..hi], start, end).Valid() && RangeJob(parts[lo..hi], start, end).Gapless()
  {
    forall k | 0 <= k < hi - lo
      ensures parts[lo..hi][k].index == lo + k
    {
      assert TileOf(parts[lo + k], lo + k, file);
    }
  }

  /** Parts of a fixed size c are the ones with indexes start / c to end / c. */
  lemma FixedSizeIndexes(parts: seq<Part>, file: seq<byte>, c: nat, at: nat, a: nat)
    requires Tiles(parts, file) && 0 < c && a < |parts| && Covers(parts[a], at)
    requires forall i :: 0 <= i < |parts| ==> parts[i].offset == i * c && parts[i].size <= c
    ensures a == at / c
  {
    var o := a * c;
    assert parts[a].offset == o && o <= at < o + c;
    QuotientIs(at, c, a);
  }

  lemma QuotientIs(n: nat, c: nat, q: nat)
    requires 0 < c && q * c <= n < q * c + c
    ensures n / c == q
  {
    var r := n / c;
    assert r * c <= n < r * c + c;
    TimesStrict(r, q, c);
    TimesStrict(q, r, c);
  }

  lemma TimesStrict(x: nat, y: nat, c: nat)
    ensures x < y ==> x * c + c <= y * c
  {
    if x < y {
      Distributes(x, 1, c);
      Distributes(x + 1, y - x - 1, c);
    }
  }

  lemma Distributes(a: nat, b: nat, c: nat)
    ensures (a + b) * c == a * c + b * c && b * c >= 0
  {
  }

  /** A full download sends the whole file. */
  lemma FullIsWhole(parts: seq<Part>, file: seq<byte>)
    requires Tiles(parts, file)
    ensures var job := FullJob(parts, |file|);
      job.Valid() && job.Gapless() && job.Sent(|parts|) == file
  {
    hide *;
    LastTile(parts, file);
    FullJobIsValid(parts, file);
    FullSends(parts, file, |parts|);
    assert file[..|file|] == file;
  }

  lemma FullJobIsValid(parts: seq<Part>, file: seq<byte>)
    requires Tiles(parts, file)
    ensures FullJob(parts, |file|).Valid() && FullJob(parts, |file|).Gapless()
  {
    forall k | 0 <= k < |parts|
      ensures parts[k].index == k
    {
      assert TileOf(parts[k], k, file);
    }
    hide Tiles;
  }

  lemma {:induction false} FullSends(parts: seq<Part>, file: seq<byte>, k: nat)
    requires Tiles(parts, file) && 0 < k <= |parts|
    ensures FullJob(parts, |file|).Sent(k) == file[..parts[k - 1].offset + parts[k - 1].size]
  {
    var job, part := FullJob(parts, |file|), parts[k - 1];
    assert TileOf(part, k - 1, file) && parts[0].offset == 0;
    hide Tiles;
    assert Slice(0, |file|, part) == part.data;
    hide Slice;
    if k > 1 {
      FullSends(parts, file, k - 1);
      Adjacent(parts, file, k - 1);
      SlicePlusSlice(file, 0, part.offset, part.offset + part.size);
    }
  }

  // ----- what the runs of the pipeline send -----

  /** The pipeline of a range request: the needed parts but the first, which is sent at once. */
  function RangeRest(parts: seq<Part>, start: nat, end: nat): (job: Job)
    ensures |job.want| == |job.parts|
  {
    var needed := Needed(parts, start, end);
    RangeJob(if needed == [] then [] else needed[1..], start, end)
  }

  function RangeFirst(parts: seq<Part>, start: nat, end: nat): seq<byte> {
    var needed := Needed(parts, start, end);
    if needed == [] then [] else Slice(start, end, needed[0])
  }

  lemma RangeRestIs(parts: seq<Part>, file: seq<byte>, start: nat, end: nat)
    requires Tiles(parts, file) && start <= end < |file|
    ensures var job := RangeRest(parts, start, end);
      && job.Valid() && job.Gapless()
      && RangeFirst(parts, start, end) + job.Sent(|job.parts|) == file[start..end + 1]
  {
    hide *;
    var a, b := RangeIsExact(parts, file, start, end);
    RangeIsSent(parts, start, end);
  }

  lemma RangeIsSent(parts: seq<Part>, start: nat, end: nat)
    requires Needed(parts, start, end) != []
    ensures var needed, job := Needed(parts, start, end), RangeRest(parts, start, end);
      && job == RangeJob(needed[1..], start, end)
      && RangeFirst(parts, start, end) + job.Sent(|job.parts|) == RangeSent(needed, start, end)
  {
    hide Needed, Slice;
  }

  lemma PrefixAfter(first: seq<byte>, some: seq<byte>, all: seq<byte>)
    requires some <= all
    ensures first + some <= first + all
  {
  }

  /** In every interleaving, whatever fails, a range request has sent a prefix of the bytes
      asked for; it has sent all of them when it returns without an error; and when nothing
      fails it does return. */
  lemma RangeDelivers(parts: seq<Part>, file: seq<byte>, start: nat, end: nat, workers: nat, run: seq<Step>)
    requires Tiles(parts, file) && start <= end < |file| && workers > 0
    requires IsRun(RangeRest(parts, start, end), Init(workers), run)
    ensures var s := After(RangeRest(parts, start, end), Init(workers), run);
      var sent := RangeFirst(parts, start, end) + s.out;
      && sent <= file[start..end + 1]
      && (s.writer == Returned(Success) ==> sent == file[start..end + 1])
    ensures QuietEnd(RangeRest(parts, start, end), Init(workers), run) ==>
      After(RangeRest(parts, start, end), Init(workers), run).writer == Returned(Success)
  {
    hide *;
    var job := RangeRest(parts, start, end);
    RangeRestIs(parts, file, start, end);
    SentIsPrefix(job, workers, run);
    PrefixAfter(RangeFirst(parts, start, end), After(job, Init(workers), run).out, job.Sent(|job.parts|));
    DeliversExactlyWhenGapless(job, workers);
    QuietDelivers(job, workers, run);
  }

  lemma QuietDelivers(job: Job, workers: nat, run: seq<Step>)
    requires |job.want| == |job.parts| && Delivers(job, workers) && IsRun(job, Init(workers), run)
    ensures QuietEnd(job, Init(workers), run) ==> After(job, Init(workers), run).writer == Returned(Success)
  {
  }

  /** The same of a full download and the whole file. */
  lemma FullDelivers(parts: seq<Part>, file: seq<byte>, workers: nat, run: seq<Step>)
    requires Tiles(parts, file) && workers > 0
    requires IsRun(FullJob(parts, |file|), Init(workers), run)
    ensures var s := After(FullJob(parts, |file|), Init(workers), run);
      s.out <= file && (s.writer == Returned(Success) ==> s.out == file)
    ensures QuietEnd(FullJob(parts, |file|), Init(workers), run) ==>
      After(FullJob(parts, |file|), Init(workers), run).writer == Returned(Success)
  {
    hide *;
    var job := FullJob(parts, |file|);
    FullIsWhole(parts, file);
    FullJobParts(parts, |file|);
    SentIsPrefix(job, workers, run);
    DeliversExactlyWhenGapless(job, workers);
    QuietDelivers(job, workers, run);
  }

  lemma FullJobParts(parts: seq<Part>, size: nat)
    ensures FullJob(parts, size).parts == parts
  {
  }
}
