/** How the download handler reads a Range header (RFC 9110, section 14.1.2), and what
    it then promises and sends. */
module HttpRange {
  import opened Wrappers
  import opened Bytes
  import opened Text
  import opened OrderedWriter
  import opened Ranges

  const UNIT := "bytes="

  /** The three forms of a single byte range. */
  datatype ByteRange = FromTo(first: nat, last: nat) | From(first: nat) | Suffix(length: nat)

  function Format(r: ByteRange): string {
    UNIT + match r
      case FromTo(first, last) => Decimal(first) + "-" + Decimal(last)
      case From(first) => Decimal(first) + "-"
      case Suffix(length) => "-" + Decimal(length)
  }

  /** The bytes the standard says are asked for; None when the range is not satisfiable. */
  function Asked(r: ByteRange, size: nat): Option<(nat, nat)> {
    match r
    case FromTo(first, last) => if first <= last && first < size then Some((first, Min(last, size - 1))) else None
    case From(first) => if first < size then Some((first, size - 1)) else None
    case Suffix(length) => if 0 < length && 0 < size then Some((Max(0, size - length), size - 1)) else None
  }

  datatype Answer = Full | Partial(start: nat, end: nat)

  function AnswerTo(header: string, size: nat): Answer {
    var fields := Split(TrimPrefix(header, UNIT), '-');
    if !HasPrefix(header, UNIT) || |fields| != 2 then Full
    else
      var start := if fields[0] == "" then Some(SuffixStart(fields[1], size)) else ParseInt(fields[0]);
      var end :=
        if fields[0] == "" then Some(if ParseInt(fields[1]).Some? then size - 1 else 0)
        else if fields[1] == "" then Some(size - 1)
        else ParseInt(fields[1]);
      if start.Some? && end.Some? && 0 <= start.value <= end.value && start.value < size
      then Partial(start.value, Min(end.value, size - 1))
      else Full
  }

  /** A suffix that does not parse leaves both ends at zero. */
  function SuffixStart(field: string, size: nat): int {
    if ParseInt(field).Some? then size - ParseInt(field).value else 0
  }

  /** The handler's own reading of the header. */
  method ReadRange(header: string, size: nat) returns (answer: Answer, contentLength: nat)
    ensures answer == AnswerTo(header, size)
    ensures contentLength == match answer case Full => size case Partial(start, end) => end - start + 1
    ensures answer.Partial? ==> answer.start <= answer.end < size
  {
    if header != "" && HasPrefix(header, UNIT) {
      var parts := Split(TrimPrefix(header, UNIT), '-');
      if |parts| == 2 {
        var start, end, parsed := 0, 0, true;
        if parts[0] == "" {
          var suffixLen := ParseInt(parts[1]);
          if suffixLen.Some? {
            start := size - suffixLen.value;
            end := size - 1;
          }
        } else {
          var first := ParseInt(parts[0]);
          parsed := first.Some?;
          if parsed {
            start := first.value;
            if parts[1] == "" {
              end := size - 1;
            } else {
              var last := ParseInt(parts[1]);
              parsed := last.Some?;
              end := if parsed then last.value else 0;
            }
          }
        }
        if parsed && start >= 0 && end >= start && start < size {
          if end >= size {
            end := size - 1;
          }
          return Partial(start, end), end - start + 1;
        }
      }
    }
    return Full, size;
  }

  lemma NoDash(s: string)
    requires AllDigits(s)
    ensures '-' !in s
  {
  }

  /** The ranges that are honoured: satisfiable, with numbers that fit in 64 bits, and a
      suffix no longer than the file. */
  predicate Honoured(r: ByteRange, size: nat) {
    && Asked(r, size).Some?
    && match r
       case FromTo(first, last) => first <= MAX_INT64 && last <= MAX_INT64
       case From(first) => first <= MAX_INT64
       case Suffix(length) => length <= MAX_INT64 && length <= size
  }

  /** A well-formed single range is answered with the bytes it asks for exactly when it is
      honoured, and else with the whole file, with one exception: a suffix length that
      does not fit in 64 bits is answered with the first byte of the file. */
  lemma WellFormedRange(r: ByteRange, size: nat)
    ensures AnswerTo(Format(r), size) ==
      if Honoured(r, size) then Partial(Asked(r, size).value.0, Asked(r, size).value.1)
      else if r.Suffix? && r.length > MAX_INT64 && size > 0 then Partial(0, 0)
      else Full
  {
    hide Decimal, Split, HasPrefix, TrimPrefix, ParseInt;
    match r {
      case FromTo(first, last) => FieldsOf(Decimal(first), Decimal(last), Format(r), first, last);
      case From(first) => FieldsOf(Decimal(first), "", Format(r), first, 0);
      case Suffix(length) => FieldsOf("", Decimal(length), Format(r), 0, length);
    }
  }

  lemma FieldsOf(a: string, b: string, header: string, m: nat, n: nat)
    requires AllDigits(a) && AllDigits(b) && header == UNIT + (a + "-" + b)
    ensures HasPrefix(header, UNIT) && Split(TrimPrefix(header, UNIT), '-') == [a, b]
    ensures ParseInt(Decimal(m)) == if m <= MAX_INT64 then Some(m) else None
    ensures ParseInt(Decimal(n)) == if n <= MAX_INT64 then Some(n) else None
  {
    PrefixOfSum(UNIT, a + "-" + b);
    NoDash(a);
    NoDash(b);
    SplitOne(a, '-', b);
    ParseDecimal(m);
    ParseDecimal(n);
  }

  /** The parts of a file: pieces that tile it, or, of an empty file, rows without bytes. */
  ghost predicate Holds(parts: seq<Part>, file: seq<byte>) {
    Tiles(parts, file) || (file == [] && forall i :: 0 <= i < |parts| ==> parts[i].data == [])
  }

  /** What a complete response sends. */
  function Body(answer: Answer, parts: seq<Part>, size: nat): seq<byte> {
    match answer
    case Full => FullJob(parts, size).Sent(|parts|)
    case Partial(start, end) =>
      var job := RangeRest(parts, start, end);
      RangeFirst(parts, start, end) + job.Sent(|job.parts|)
  }

  /** Whatever the header, well formed or not, the declared Content-Length is the number
      of bytes a complete response sends, and the bytes are the promised ones. */
  lemma ContentLengthIsExact(header: string, parts: seq<Part>, file: seq<byte>)
    requires Holds(parts, file)
    ensures var body := Body(AnswerTo(header, |file|), parts, |file|);
      match AnswerTo(header, |file|)
      case Full => body == file
      case Partial(start, end) => start <= end < |file| && body == file[start..end + 1] && |body| == end - start + 1
  {
    AnswerIsWithin(header, |file|);
    var answer := AnswerTo(header, |file|);
    hide AnswerTo, Holds;
    if answer.Full? {
      FullBody(parts, file);
    } else {
      PartialBody(parts, file, answer.start, answer.end);
    }
  }

  lemma FullBody(parts: seq<Part>, file: seq<byte>)
    requires Holds(parts, file)
    ensures Body(Full, parts, |file|) == file
  {
    hide Tiles, FullJob;
    if Tiles(parts, file) {
      FullIsWhole(parts, file);
    } else {
      EmptySends(parts, |parts|);
    }
  }

  lemma PartialBody(parts: seq<Part>, file: seq<byte>, start: nat, end: nat)
    requires Holds(parts, file) && start <= end < |file|
    ensures Body(Partial(start, end), parts, |file|) == file[start..end + 1]
  {
    hide Tiles, RangeRest, RangeFirst;
    RangeRestIs(parts, file, start, end);
  }

  lemma AnswerIsWithin(header: string, size: nat)
    ensures var answer := AnswerTo(header, size); answer.Partial? ==> answer.start <= answer.end < size
  {
    hide Split, HasPrefix, TrimPrefix, ParseInt;
  }

  lemma {:induction false} EmptySends(parts: seq<Part>, k: nat)
    requires k <= |parts| && forall i :: 0 <= i < |parts| ==> parts[i].data == []
    ensures FullJob(parts, 0).parts == parts && FullJob(parts, 0).Sent(k) == []
  {
    if k > 0 {
      EmptySends(parts, k - 1);
    }
  }
}
