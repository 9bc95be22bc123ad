/** Content-defined chunking: a gear hash in wrapping 64-bit arithmetic decides
    where a stream is cut, and a bounded sliding buffer cuts streams of any length. */
module FastCdc {
  import opened Wrappers
  import opened Bytes

  const DEFAULT_MIN_SIZE: nat := 8 * 1024 * 1024
  const DEFAULT_AVG_SIZE: nat := 20 * 1024 * 1024
  const DEFAULT_MAX_SIZE: nat := 24 * 1024 * 1024
  const MASK_BITS: nat := 24
  const MASK_RANGE: nat := 0x100_0000  // 1 << MASK_BITS

  /** Go's uint64: every operation wraps at 2^64. */
  type uint64 = x: int | 0 <= x < TWO_64
  const TWO_64: nat := 0x1_0000_0000_0000_0000

  function Wrap64(x: nat): uint64 {
    x % TWO_64
  }

  /** The generator behind the gear table: its value after n steps. */
  function GearState(n: nat): uint64 {
    if n == 0 then 0x9E37_79B9_7F4A_7C15
    else Wrap64(GearState(n - 1) * 0x5851_F42D_4C95_7F2D + 0x1405_7B7E_76E1_149B)
  }

  method InitGearTable() returns (table: seq<uint64>)
    ensures |table| == 256
    ensures forall i :: 0 <= i < 256 ==> table[i] == GearState(i + 1)
  {
    var g: uint64 := 0x9E37_79B9_7F4A_7C15;
    table := [];
    for i := 0 to 256
      invariant |table| == i && g == GearState(i)
      invariant forall k :: 0 <= k < i ==> table[k] == GearState(k + 1)
    {
      g := Wrap64(g * 0x5851_F42D_4C95_7F2D + 0x1405_7B7E_76E1_149B);
      table := table + [g];
    }
  }

  /** One byte shifted into the hash: fingerprint << 1, plus its gear value. */
  function Step(fingerprint: uint64, gearValue: uint64): uint64 {
    Wrap64(Wrap64(fingerprint * 2) + gearValue)
  }

  /** The low MASK_BITS bits of x, which is what x & ((1 << MASK_BITS) - 1) keeps. */
  function Masked(x: uint64): nat {
    x % MASK_RANGE
  }

  datatype Chunk = Chunk(index: nat, offset: nat, length: nat, data: seq<byte>)

  /** The hash after `s` has been shifted in, oldest byte first. */
  function Fold(gear: seq<uint64>, start: uint64, s: seq<byte>): uint64
    requires |gear| == 256
  {
    if s == [] then start
    else Step(Fold(gear, start, s[..|s| - 1]), gear[s[|s| - 1]])
  }

  lemma FoldStep(gear: seq<uint64>, start: uint64, s: seq<byte>, lo: nat, i: nat)
    requires |gear| == 256 && lo <= i < |s|
    ensures Fold(gear, start, s[lo..i + 1]) == Step(Fold(gear, start, s[lo..i]), gear[s[i]])
  {
    assert s[lo..i + 1][..i - lo] == s[lo..i];
  }

  datatype FastCDC = FastCDC(minSize: nat, avgSize: nat, maxSize: nat, gear: seq<uint64>) {
    /** What the constructor guarantees for any arguments. Note that it does not
        guarantee minSize < maxSize. */
    ghost predicate Valid() {
      0 < minSize && 0 < maxSize && |gear| == 256
    }

    /** The boundary test on position i of a chunk that starts at the head of `data`. */
    predicate Boundary(data: seq<byte>, i: nat)
      requires Valid() && minSize <= i < |data|
    {
      Masked(Fold(gear, 0, data[minSize..i + 1])) == 0
    }

    /** The first boundary at or after i, else n. */
    function Scan(data: seq<byte>, i: nat, n: nat): (r: nat)
      requires Valid() && minSize <= i && n <= |data|
      ensures r <= n
      decreases n - i
    {
      if i >= n then n else if Boundary(data, i) then i + 1 else Scan(data, i + 1, n)
    }

    function Cut(data: seq<byte>): (r: nat)
      requires Valid()
      ensures r <= |data|
    {
      if |data| <= minSize then |data| else Scan(data, minSize, Min(|data|, maxSize))
    }

    /** What a cut is, without running the scan: the first boundary that leaves
        between minSize + 1 and maxSize bytes, else as many bytes as are allowed. */
    ghost predicate IsCut(data: seq<byte>, cut: nat)
      requires Valid()
    {
      if |data| <= minSize then cut == |data|
      else
        var n := Min(|data|, maxSize);
        && (forall i :: minSize <= i < n && i + 1 < cut ==> !Boundary(data, i))
        && (cut == n || (minSize < cut < n && Boundary(data, cut - 1)))
    }

    lemma {:induction false} ScanIsFirst(data: seq<byte>, i: nat, n: nat)
      requires Valid() && minSize <= i && n <= |data|
      ensures var r := Scan(data, i, n);
        && (forall k :: i <= k < n && k + 1 < r ==> !Boundary(data, k))
        && (r == n || (i < r < n && Boundary(data, r - 1)))
      decreases n - i
    {
      if i < n && !Boundary(data, i) {
        ScanIsFirst(data, i + 1, n);
      }
    }

    /** The scan finds the one cut there is. */
    lemma CutIsUnique(data: seq<byte>, cut: nat)
      requires Valid()
      ensures IsCut(data, cut) <==> cut == Cut(data)
    {
      if |data| > minSize {
        var n := Min(|data|, maxSize);
        ScanIsFirst(data, minSize, n);
      }
    }

    method NextCut(data: seq<byte>) returns (cut: nat)
      requires Valid()
      ensures IsCut(data, cut)
      ensures cut == Cut(data)
    {
      CutIsUnique(data, Cut(data));
      var n := |data|;
      if n <= minSize {
        return n;
      }
      if n > maxSize {
        n := maxSize;
      }
      var fingerprint: uint64 := 0;
      var i := minSize;
      assert data[minSize..i] == [];
      while i < n
        invariant minSize <= i && (i <= n || i == minSize)
        invariant i <= n ==> fingerprint == Fold(gear, 0, data[minSize..i])
        invariant Cut(data) == Scan(data, i, n)
      {
        FoldStep(gear, 0, data, minSize, i);
        fingerprint := Step(fingerprint, gear[data[i]]);
        if Masked(fingerprint) == 0 {
          assert Boundary(data, i);
          return i + 1;
        }
        i := i + 1;
      }
      return n;
    }

    lemma CutProgress(data: seq<byte>)
      requires Valid() && data != []
      ensures 0 < Cut(data) <= |data|
    {
      CutIsUnique(data, Cut(data));
    }

    function FirstChunk(data: seq<byte>, index: nat, offset: nat): Chunk
      requires Valid()
    {
      var cut := Cut(data);
      Chunk(index, offset, cut, data[..cut])
    }

    /** The meaning of splitting: cut, and go on with the rest. */
    function PureSplit(data: seq<byte>, index: nat, offset: nat): seq<Chunk>
      requires Valid()
      decreases |data|
    {
      if data == [] then []
      else
        CutProgress(data);
        [FirstChunk(data, index, offset)]
        + PureSplit(data[Cut(data)..], index + 1, offset + Cut(data))
    }

    lemma FirstChunkLength(data: seq<byte>, index: nat, offset: nat)
      requires Valid() && data != []
      ensures 0 < FirstChunk(data, index, offset).length <= |data|
    {
      CutProgress(data);
    }

    lemma {:induction false} ScanLocal(a: seq<byte>, b: seq<byte>, i: nat, n: nat)
      requires Valid() && minSize <= i && n <= |a| && n <= |b| && a[..n] == b[..n]
      ensures Scan(a, i, n) == Scan(b, i, n)
      decreases n - i
    {
      if i < n {
        assert forall k :: 0 <= k < n ==> a[k] == a[..n][k] == b[..n][k] == b[k];
        assert a[minSize..i + 1] == b[minSize..i + 1];
        ScanLocal(a, b, i + 1, n);
      }
    }

    /** A full buffer decides the cut of everything behind it when it is longer
        than the minimum. */
    lemma BufferDecidesCut(buf: seq<byte>, rest: seq<byte>)
      requires Valid() && buf <= rest
      requires buf == rest || (|buf| == 2 * maxSize && minSize < 2 * maxSize)
      ensures Cut(buf) == Cut(rest)
    {
      if buf != rest {
        assert buf[..maxSize] == rest[..maxSize];
        ScanLocal(buf, rest, minSize, maxSize);
      }
    }

    /** A chunk cut inside the buffer is the one cut from the stream behind it. */
    lemma BufferDecidesChunk(buf: seq<byte>, rest: seq<byte>, index: nat, offset: nat)
      requires Valid() && buf <= rest
      requires buf == rest || (|buf| == 2 * maxSize && minSize < 2 * maxSize)
      ensures Cut(buf) == Cut(rest)
      ensures FirstChunk(buf, index, offset) == FirstChunk(rest, index, offset)
    {
      BufferDecidesCut(buf, rest);
      assert buf[..Cut(buf)] == rest[..Cut(buf)];
    }

    /** Cuts one chunk off the front of the buffer and shifts the rest down. */
    method Emit(buf: Buffer, index: nat, offset: nat) returns (chunk: Chunk)
      requires Valid() && buf.Valid() && buf.held != []
      modifies buf, buf.data
      ensures buf.Valid() && chunk == FirstChunk(old(buf.held), index, offset)
      ensures 0 < chunk.length <= |old(buf.held)| && Dropped(old(buf.held), chunk.length, buf.held)
      ensures buf.len == |buf.held| < |old(buf.held)|
    {
      var cut := NextCut(buf.data[..buf.len]);
      CutProgress(buf.held);
      var chunkData := buf.data[..cut];
      assert chunkData == buf.held[..cut];
      chunk := Chunk(index, offset, cut, chunkData);
      buf.Shift(cut);
    }

    /** Cuts up what the buffer still holds when the stream has ended. */
    method Drain(buf: Buffer, index: nat, offset: nat) returns (chunks: seq<Chunk>)
      requires Valid() && buf.Valid() && buf.len == |buf.held|
      modifies buf, buf.data
      ensures chunks == PureSplit(old(buf.held), index, offset)
    {
      hide *;
      ghost var whole := PureSplit(buf.held, index, offset);
      var next: nat, pos: nat := index, offset;
      chunks := [];
      ProgressStart(buf.held, index, offset);
      while buf.len > 0
        invariant buf.Valid() && buf.len == |buf.held| && Progress(whole, chunks, buf.held, next, pos)
        decreases |buf.held|
      {
        ProgressStep(whole, chunks, buf.held, next, pos);
        var chunk := Emit(buf, next, pos);
        chunks := chunks + [chunk];
        next, pos := next + 1, pos + chunk.length;
      }
      ProgressEnd(whole, chunks, buf.held, next, pos);
    }

    /** The chunks cut so far, followed by the split of what is left, are the whole result. */
    ghost predicate Progress(whole: seq<Chunk>, chunks: seq<Chunk>, rest: seq<byte>, index: nat, offset: nat)
      requires Valid()
    {
      chunks + PureSplit(rest, index, offset) == whole
    }

    lemma ProgressStart(rest: seq<byte>, index: nat, offset: nat)
      requires Valid()
      ensures Progress(PureSplit(rest, index, offset), [], rest, index, offset)
    {
    }

    lemma ProgressStep(whole: seq<Chunk>, chunks: seq<Chunk>, rest: seq<byte>, index: nat, offset: nat)
      requires Valid() && rest != [] && Progress(whole, chunks, rest, index, offset)
      ensures var chunk := FirstChunk(rest, index, offset);
        Progress(whole, chunks + [chunk], rest[chunk.length..], index + 1, offset + chunk.length)
    {
      CutProgress(rest);
    }

    lemma ProgressEnd(whole: seq<Chunk>, chunks: seq<Chunk>, rest: seq<byte>, index: nat, offset: nat)
      requires Valid() && Progress(whole, chunks, rest, index, offset) && rest == []
      ensures chunks == whole
    {
    }

    /** Split's invariant: a faithful stream is on its way to its pure split, and any
        other one has, after its first chunk, already gone wrong. */
    ghost predicate Cutting(x: seq<byte>, chunks: seq<Chunk>, rest: seq<byte>, index: nat, offset: nat)
      requires Valid()
    {
      && |rest| <= |x|
      && (index == 0 ==> chunks == [] && rest == x)
      && if Faithful(x) then Progress(PureSplit(x, 0, 0), chunks, rest, index, offset)
         else index > 0 ==> Oversized(chunks)
    }

    /** What a chunker with a minimum of at least twice the maximum cuts first. */
    ghost predicate Oversized(chunks: seq<Chunk>) {
      chunks != [] && chunks[0].length == 2 * maxSize
    }

    lemma CuttingStep(x: seq<byte>, chunks: seq<Chunk>, rest: seq<byte>, index: nat, offset: nat,
                      held: seq<byte>, unread: seq<byte>)
      requires Valid() && Cutting(x, chunks, rest, index, offset)
      requires held != [] && Ahead(held, unread, rest) && (unread == [] || |held| == 2 * maxSize)
      requires index == 0 && |rest| > 2 * maxSize ==> |held| == 2 * maxSize
      ensures 0 < FirstChunk(held, index, offset).length <= |held|
      ensures var chunk := FirstChunk(held, index, offset);
        Cutting(x, chunks + [chunk], rest[chunk.length..], index + 1, offset + chunk.length)
    {
      FirstChunkLength(held, index, offset);
      AheadIsPrefix(held, unread, rest);
      hide Valid, PureSplit, Cut, FirstChunk, Progress, Oversized, Ahead;
      if Faithful(x) {
        BufferDecidesChunk(held, rest, index, offset);
        ProgressStep(PureSplit(x, 0, 0), chunks, rest, index, offset);
      } else {
        OversizedStep(chunks, index, offset, held);
      }
    }

    lemma CuttingStart(x: seq<byte>)
      requires Valid()
      ensures 0 < maxSize && Cutting(x, [], x, 0, 0)
    {
      ProgressStart(x, 0, 0);
    }

    lemma OversizedStep(chunks: seq<Chunk>, index: nat, offset: nat, held: seq<byte>)
      requires Valid() && 2 * maxSize <= minSize
      requires if index == 0 then chunks == [] && |held| == 2 * maxSize else Oversized(chunks)
      ensures Oversized(chunks + [FirstChunk(held, index, offset)])
    {
      var chunk := FirstChunk(held, index, offset);
      assert (chunks + [chunk])[0] == if index == 0 then chunk else chunks[0];
    }

    /** The chunks are the pure split of x exactly when x is faithful. */
    ghost predicate Judged(x: seq<byte>, chunks: seq<Chunk>)
      requires Valid()
    {
      chunks == PureSplit(x, 0, 0) <==> Faithful(x)
    }

    lemma CuttingEnd(x: seq<byte>, chunks: seq<Chunk>, rest: seq<byte>, index: nat, offset: nat)
      requires Valid() && Cutting(x, chunks, rest, index, offset) && (index > 0 || rest == [])
      ensures Judged(x, chunks + PureSplit(rest, index, offset))
      ensures rest == [] ==> Judged(x, chunks)
    {
      assert rest == [] ==> chunks + PureSplit(rest, index, offset) == chunks;
      if !Faithful(x) {
        assert (chunks + PureSplit(rest, index, offset))[0] == chunks[0];
        assert Cut(x) != 2 * maxSize;
      }
    }

    function JoinData(chunks: seq<Chunk>): seq<byte> {
      if chunks == [] then [] else chunks[0].data + JoinData(chunks[1..])
    }

    /** One unfolding of the split. */
    lemma SplitUnfolds(data: seq<byte>, index: nat, offset: nat, c: Chunk, rest: seq<byte>)
      requires Valid() && data != [] && c == FirstChunk(data, index, offset) && rest == data[c.length..]
      ensures PureSplit(data, index, offset) == [c] + PureSplit(rest, index + 1, offset + c.length)
      ensures data == c.data + rest && 0 < c.length == |c.data| && c.index == index && c.offset == offset
      ensures minSize < maxSize ==> c.length <= maxSize && (rest != [] ==> minSize < c.length)
    {
      CutProgress(data);
      CutIsUnique(data, Cut(data));
    }

    /** Chunks hold their input: nothing lost, nothing twice. */
    lemma {:induction false} SplitKeepsData(data: seq<byte>, index: nat, offset: nat)
      requires Valid()
      ensures JoinData(PureSplit(data, index, offset)) == data
      decreases |data|
    {
      if data != [] {
        hide *;
        CutProgress(data);
        var c := FirstChunk(data, index, offset);
        FirstChunkLength(data, index, offset);
        SplitUnfolds(data, index, offset, c, data[c.length..]);
        SplitKeepsData(data[c.length..], index + 1, offset + c.length);
        JoinFirst(c, PureSplit(data[c.length..], index + 1, offset + c.length));
      }
    }

    lemma JoinFirst(c: Chunk, cs: seq<Chunk>)
      ensures JoinData([c] + cs) == c.data + JoinData(cs)
    {
      assert ([c] + cs)[1..] == cs;
    }

    /** What the fields of the chunks of a split say of each other. With a minimum below
        the maximum every chunk but the last is longer than the minimum, and none is
        longer than the maximum. */
    ghost predicate WellPlaced(cs: seq<Chunk>, index: nat, offset: nat) {
      forall i :: 0 <= i < |cs| ==>
        && cs[i].index == index + i
        && cs[i].offset == (if i == 0 then offset else cs[i - 1].offset + cs[i - 1].length)
        && 0 < cs[i].length == |cs[i].data|
        && (minSize < maxSize ==> cs[i].length <= maxSize && (i < |cs| - 1 ==> minSize < cs[i].length))
    }

    lemma {:induction false} SplitPlaces(data: seq<byte>, index: nat, offset: nat)
      requires Valid()
      ensures WellPlaced(PureSplit(data, index, offset), index, offset)
      decreases |data|
    {
      if data != [] {
        hide *;
        var c := FirstChunk(data, index, offset);
        FirstChunkLength(data, index, offset);
        var rest := data[c.length..];
        SplitUnfolds(data, index, offset, c, rest);
        SplitPlaces(rest, index + 1, offset + c.length);
        PlaceFirst(c, PureSplit(rest, index + 1, offset + c.length));
      }
    }

    lemma PlaceFirst(c: Chunk, cs: seq<Chunk>)
      requires WellPlaced(cs, c.index + 1, c.offset + c.length) && 0 < c.length == |c.data|
      requires minSize < maxSize ==> c.length <= maxSize && (cs != [] ==> minSize < c.length)
      ensures WellPlaced([c] + cs, c.index, c.offset)
    {
      var all := [c] + cs;
      forall i | 0 <= i < |all|
        ensures all[i].index == c.index + i
        ensures all[i].offset == if i == 0 then c.offset else all[i - 1].offset + all[i - 1].length
        ensures 0 < all[i].length == |all[i].data|
        ensures minSize < maxSize ==> all[i].length <= maxSize && (i < |all| - 1 ==> minSize < all[i].length)
      {
        if i > 0 {
          assert all[i] == cs[i - 1] && (i > 1 ==> all[i - 1] == cs[i - 2]);
        }
      }
    }

    /** The streams this chunker splits as the pure recursion does. */
    predicate Faithful(stream: seq<byte>) {
      minSize < 2 * maxSize || |stream| <= 2 * maxSize
    }

    /** Cuts a stream through a buffer of twice the maximum. For every reader that
        ends in EOF the result is the pure split of the whole stream exactly when the
        minimum fits in the buffer or the whole stream does. A reader that breaks
        yields its error and no chunks. */
    method Split(r: Reader) returns (res: Result<seq<Chunk>, ReadError>)
      requires Valid() && r.pos == 0
      modifies r
      ensures r.broken ==> res == Err(Fault)
      ensures !r.broken ==> res.Ok? && (res.value == PureSplit(r.data, 0, 0) <==> Faithful(r.data))
    {
      var buf := new Buffer(maxSize * 2);
      res := SplitThrough(r, buf);
    }

    /** One round of Split on a filled buffer. */
    method CutNext(buf: Buffer, chunks: seq<Chunk>, index: nat, offset: nat,
                   ghost x: seq<byte>, ghost unread: seq<byte>, ghost rest: seq<byte>)
      returns (chunks': seq<Chunk>, offset': nat, ghost rest': seq<byte>)
      requires Valid() && buf.Valid() && buf.held != [] && |buf.held| <= 2 * maxSize
      requires Ahead(buf.held, unread, rest) && Cutting(x, chunks, rest, index, offset)
      requires unread == [] || |buf.held| == 2 * maxSize
      requires index == 0 && |rest| > 2 * maxSize ==> |buf.held| == 2 * maxSize
      modifies buf, buf.data
      ensures buf.Valid() && buf.len == |buf.held| < 2 * maxSize && |rest'| < |rest|
      ensures Ahead(buf.held, unread, rest') && Cutting(x, chunks', rest', index + 1, offset')
    {
      hide *;
      ghost var held := buf.held;
      CuttingStep(x, chunks, rest, index, offset, held, unread);
      var chunk := Emit(buf, index, offset);
      AheadCut(held, unread, rest, chunk.length, buf.held);
      chunks', offset', rest' := chunks + [chunk], offset + chunk.length, rest[chunk.length..];
    }

    method SplitThrough(r: Reader, buf: Buffer) returns (res: Result<seq<Chunk>, ReadError>)
      requires Valid() && r.pos == 0
      requires buf.Valid() && buf.held == [] && buf.len == 0 && buf.data.Length == 2 * maxSize
      modifies r, buf, buf.data
      ensures if r.broken then res == Err(Fault)
        else res.Ok? && Judged(r.data, res.value)
    {
      hide *;
      ghost var x := r.data;
      ghost var rest, unread := x, x;
      DroppedNone(x);
      CuttingStart(x);
      var chunks: seq<Chunk> := [];
      var totalOffset: nat, chunkIndex: nat := 0, 0;
      AheadAll([], x);
      while true
        invariant buf.Valid() && buf.len == |buf.held| < 2 * maxSize && Dropped(x, r.pos, unread)
        invariant Ahead(buf.held, unread, rest) && Cutting(x, chunks, rest, chunkIndex, totalOffset)
        invariant chunkIndex == 0 ==> buf.held == []
        decreases |rest|
      {
        var err;
        err, unread := buf.Fill(r, unread, rest);
        if buf.len == 0 {
          CuttingEnd(x, chunks, rest, chunkIndex, totalOffset);
          return if err == Eof || err == UnexpectedEof then Ok(chunks) else Err(err);
        }
        chunks, totalOffset, rest := CutNext(buf, chunks, chunkIndex, totalOffset, x, unread, rest);
        chunkIndex := chunkIndex + 1;
        if err == Eof || err == UnexpectedEof {
          AheadAll(buf.held, rest);
          CuttingEnd(x, chunks, rest, chunkIndex, totalOffset);
          var last := Drain(buf, chunkIndex, totalOffset);
          return Ok(chunks + last);
        }
      }
    }
  }

  /** What is buffered and what is still to be read make up the rest of the stream. */
  ghost predicate Ahead(held: seq<byte>, unread: seq<byte>, rest: seq<byte>) {
    held + unread == rest
  }

  lemma AheadIsPrefix(held: seq<byte>, unread: seq<byte>, rest: seq<byte>)
    requires Ahead(held, unread, rest)
    ensures held <= rest && (unread == [] ==> held == rest)
  {
  }

  lemma AheadAll(held: seq<byte>, rest: seq<byte>)
    ensures Ahead(held, [], rest) <==> held == rest
    ensures Ahead([], rest, rest)
  {
  }

  /** What is left of `held` when k bytes have been taken off its front. */
  ghost predicate Dropped(held: seq<byte>, k: nat, left: seq<byte>) {
    k <= |held| && left == held[k..]
  }

  lemma DroppedNone(x: seq<byte>)
    ensures Dropped(x, 0, x)
  {
  }

  lemma AheadCut(held: seq<byte>, unread: seq<byte>, rest: seq<byte>, k: nat, left: seq<byte>)
    requires Ahead(held, unread, rest) && Dropped(held, k, left)
    ensures k <= |rest| && |left| == |held| - k && Ahead(left, unread, rest[k..])
  {
    DropOfConcat(held, unread, k);
  }

  /** The sliding buffer: bytes that have been read and not yet cut. */
  class Buffer {
    const data: array<byte>
    var len: nat
    ghost var held: seq<byte>

    ghost predicate Valid()
      reads this, data
    {
      len <= data.Length && held == data[..len]
    }

    constructor (capacity: nat)
      ensures Valid() && held == [] && len == 0 && data.Length == capacity && fresh(data)
    {
      data := new byte[capacity](_ => 0);
      len, held := 0, [];
    }

    /** Tops the buffer up from the stream; it is full unless the stream is used up. */
    method Fill(r: Reader, ghost unread: seq<byte>, ghost rest: seq<byte>)
      returns (err: ReadError, ghost unread': seq<byte>)
      requires Valid() && Dropped(r.data, r.pos, unread) && len < data.Length && Ahead(held, unread, rest)
      modifies this, data, r
      ensures Valid() && len == |held| <= data.Length
      ensures Dropped(r.data, r.pos, unread') && Ahead(held, unread', rest)
      ensures unread' == [] || |held| == data.Length
      ensures err == Eof || err == UnexpectedEof ==> !r.broken && unread' == []
      ensures held == [] ==> rest == [] && err == if r.broken then Fault else Eof
      ensures old(held) == [] && |rest| > data.Length ==> |held| == data.Length
    {
      ghost var before := held;
      var n, e := r.ReadFull(data, len);
      len, err, unread' := len + n, e, r.data[r.pos..];
      held := data[..len];
      assert before + unread == held + unread';
    }

    /** Takes k bytes off the front: copy(buf, buf[k:len]). */
    method Shift(k: nat)
      requires Valid() && k <= len
      modifies this, data
      ensures Valid() && len == |held| && Dropped(old(held), k, held)
    {
      forall i | 0 <= i < len - k {
        data[i] := data[i + k];
      }
      len := len - k;
      held := held[k..];
    }
  }

  // ----- the constructor's sizes -----

  function ChosenMin(minSize: int): nat {
    if minSize > 0 then minSize else DEFAULT_MIN_SIZE
  }

  function ChosenAvg(minSize: int, avgSize: int): nat {
    if avgSize > ChosenMin(minSize) then avgSize else DEFAULT_AVG_SIZE
  }

  /** The constructor compares each size with the one before it and falls back to a default.
      It does not compare the default with anything, so the sizes it ends with need not be in
      order: the clauses say when they are. */
  method NewFastCDC(minSize: int, avgSize: int, maxSize: int) returns (c: FastCDC)
    ensures c.Valid() && forall i :: 0 <= i < 256 ==> c.gear[i] == GearState(i + 1)
    ensures c.minSize == ChosenMin(minSize) && c.avgSize == ChosenAvg(minSize, avgSize)
    ensures c.maxSize == if maxSize > ChosenAvg(minSize, avgSize) then maxSize else DEFAULT_MAX_SIZE
    ensures c.minSize < c.avgSize <==> avgSize > c.minSize || c.minSize < DEFAULT_AVG_SIZE
    ensures c.avgSize < c.maxSize <==> maxSize > c.avgSize || c.avgSize < DEFAULT_MAX_SIZE
    ensures 0 < minSize < avgSize < maxSize ==> c.minSize == minSize && c.avgSize == avgSize && c.maxSize == maxSize
    ensures minSize <= 0 && avgSize <= 0 && maxSize <= 0 ==> c.minSize < c.avgSize < c.maxSize
  {
    var lo, avg, hi := minSize, avgSize, maxSize;
    if lo <= 0 {
      lo := DEFAULT_MIN_SIZE;
    }
    if avg <= lo {
      avg := DEFAULT_AVG_SIZE;
    }
    if hi <= avg {
      hi := DEFAULT_MAX_SIZE;
    }
    var gear := InitGearTable();
    c := FastCDC(lo, avg, hi, gear);
  }

  /** A chunker with the sizes chosen for the given ones. */
  ghost predicate Made(c: FastCDC, minSize: int, avgSize: int, maxSize: int) {
    && c.Valid() && c.minSize == ChosenMin(minSize) && c.avgSize == ChosenAvg(minSize, avgSize)
    && c.maxSize == if maxSize > c.avgSize then maxSize else DEFAULT_MAX_SIZE
  }

  /** For which arguments the chunker splits every stream as the pure recursion does, and for
      which its least chunk is smaller than its greatest. */
  lemma ConstructedIsFaithful(c: FastCDC, minSize: int, avgSize: int, maxSize: int)
    requires Made(c, minSize, avgSize, maxSize)
    ensures var lo, avg := ChosenMin(minSize), ChosenAvg(minSize, avgSize);
            var hi := if maxSize > avg then maxSize else DEFAULT_MAX_SIZE;
            && (c.minSize < c.maxSize <==> lo < hi)
            && ((forall x: seq<byte> :: c.Faithful(x)) <==> lo < 2 * hi)
  {
    if c.minSize >= 2 * c.maxSize {
      var x: seq<byte> := seq(2 * c.maxSize + 1, i => 0);
      assert !c.Faithful(x);
    }
  }

  /** A minimum of 100 MiB and nothing else given: the chunker does not split a longer stream
      than 48 MiB as the pure recursion does. With 22 MiB, nothing and 21 MiB the least chunk
      is greater than the greatest. */
  lemma ConstructedOutOfOrder(big: FastCDC, close: FastCDC, x: seq<byte>)
    requires Made(big, 100 * 1024 * 1024, 0, 0) && Made(close, 22 * 1024 * 1024, 0, 21 * 1024 * 1024)
    ensures big.minSize == 100 * 1024 * 1024 && big.avgSize == DEFAULT_AVG_SIZE && big.maxSize == DEFAULT_MAX_SIZE
    ensures big.Faithful(x) <==> |x| <= 48 * 1024 * 1024
    ensures close.minSize > close.maxSize && close.Faithful(x)
  {
  }

  datatype ReadError = NoError | Eof | UnexpectedEof | Fault

  /** A stream of bytes. A broken one fails with something other than EOF once its
      bytes are used up, and keeps failing. */
  class Reader {
    const data: seq<byte>
    const broken: bool
    var pos: nat

    constructor (data: seq<byte>, broken: bool)
      ensures this.data == data && pos == 0 && this.broken == broken
    {
      this.data := data;
      this.broken := broken;
      pos := 0;
    }

    /** Fills buf from index lo as far as the stream goes. */
    method ReadFull(buf: array<byte>, lo: nat) returns (n: nat, err: ReadError)
      requires pos <= |data| && lo <= buf.Length
      modifies this`pos, buf
      ensures lo + n <= buf.Length && pos == old(pos) + n <= |data|
      ensures buf[..lo + n] + data[pos..] == old(buf[..lo]) + data[old(pos)..]
      ensures lo + n < buf.Length ==> pos == |data| && data[pos..] == []
      ensures err ==
        if lo + n == buf.Length then NoError
        else if broken then Fault
        else if n == 0 then Eof else UnexpectedEof
    {
      n := Min(buf.Length - lo, |data| - pos);
      forall i | 0 <= i < n {
        buf[lo + i] := data[pos + i];
      }
      pos := pos + n;
      err := if n == buf.Length - lo then NoError
             else if broken then Fault
             else if n == 0 then Eof else UnexpectedEof;
    }
  }

  function Pow2(n: nat): (p: nat)
    ensures 0 < p
  {
    if n == 0 then 1 else 2 * Pow2(n - 1)
  }

  lemma {:induction false} FoldSplit(gear: seq<uint64>, start: uint64, u: seq<byte>, v: seq<byte>)
    requires |gear| == 256
    ensures Fold(gear, start, u + v) == Fold(gear, Fold(gear, start, u), v)
    decreases |v|
  {
    if v == [] {
      assert u + v == u;
    } else {
      assert (u + v)[..|u + v| - 1] == u + v[..|v| - 1];
      FoldSplit(gear, start, u, v[..|v| - 1]);
    }
  }

  /** Two hashes that read the same bytes drift apart by their starting difference
      shifted left once a byte, whatever wraps on the way. */
  lemma {:induction false} Drift(gear: seq<uint64>, a: uint64, b: uint64, w: seq<byte>) returns (wraps: int)
    requires |gear| == 256
    ensures Fold(gear, a, w) - Fold(gear, b, w) == Pow2(|w|) * (a - b) + TWO_64 * wraps
    decreases |w|
  {
    if w == [] {
      wraps := 0;
    } else {
      var w' := w[..|w| - 1];
      var t := Drift(gear, a, b, w');
      var fa, fb, g := Fold(gear, a, w'), Fold(gear, b, w'), gear[w[|w| - 1]];
      var ka := StepWraps(fa, g);
      var kb := StepWraps(fb, g);
      wraps := 2 * t - ka + kb;
      TwiceProduct(Pow2(|w'|), a - b);
    }
  }

  lemma TwiceProduct(p: int, d: int)
    ensures 2 * (p * d) == (2 * p) * d
  {
  }

  lemma StepWraps(f: uint64, g: uint64) returns (k: int)
    ensures Step(f, g) == 2 * f + g - TWO_64 * k
  {
    k := (f * 2) / TWO_64 + (Wrap64(f * 2) + g) / TWO_64;
  }

  lemma Pow2OfMaskBits()
    ensures Pow2(MASK_BITS) == MASK_RANGE
  {
    assert Pow2(6) == 64;
    assert Pow2(12) == 0x1000;
    assert Pow2(18) == 0x4_0000;
  }

  lemma MaskedOfMultiple(x: uint64, y: uint64, q: int)
    requires x - y == MASK_RANGE * q
    ensures Masked(x) == Masked(y)
  {
  }

  /** Whatever came before, MASK_BITS bytes decide the masked hash. */
  lemma Window(gear: seq<uint64>, a: uint64, b: uint64, w: seq<byte>)
    requires |gear| == 256 && |w| == MASK_BITS
    ensures Masked(Fold(gear, a, w)) == Masked(Fold(gear, b, w))
  {
    Pow2OfMaskBits();
    var t := Drift(gear, a, b, w);
    var x, y := Fold(gear, a, w), Fold(gear, b, w);
    MaskedOfMultiple(x, y, a - b + 0x100_0000_0000 * t);
  }

  /** Boundaries are content defined: two streams cut by chunkers of any sizes over
      one gear table agree on the boundary test wherever they share the last
      MASK_BITS bytes, once each is that far past its own minimum. */
  lemma BoundaryIsContentDefined(c: FastCDC, d: FastCDC, x: seq<byte>, i: nat, y: seq<byte>, j: nat)
    requires c.Valid() && d.Valid() && c.gear == d.gear
    requires c.minSize + MASK_BITS <= i + 1 <= |x|
    requires d.minSize + MASK_BITS <= j + 1 <= |y|
    requires x[i + 1 - MASK_BITS..i + 1] == y[j + 1 - MASK_BITS..j + 1]
    ensures c.Boundary(x, i) <==> d.Boundary(y, j)
  {
    var w := x[i + 1 - MASK_BITS..i + 1];
    var u, v := x[c.minSize..i + 1 - MASK_BITS], y[d.minSize..j + 1 - MASK_BITS];
    assert x[c.minSize..i + 1] == u + w && y[d.minSize..j + 1] == v + w;
    FoldSplit(c.gear, 0, u, w);
    FoldSplit(c.gear, 0, v, w);
    Window(c.gear, Fold(c.gear, 0, u), Fold(c.gear, 0, v), w);
  }
}
