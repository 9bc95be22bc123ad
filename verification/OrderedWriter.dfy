/** The streaming pipeline: workers fetch parts in any order into a shared map, and one
    writer sends them in order, sleeping on a condition variable until its next part is
    there. A state is what the goroutines share; a step is what one of them does between
    two points at which another can run (a whole critical section, or one blocking call). */
module OrderedWriter {
  import opened Bytes

  datatype Part = Part(index: nat, offset: nat, size: nat, data: seq<byte>)

  /** The slice of a part's bytes that lies in the byte range start..end, end included. */
  function Slice(start: nat, end: int, part: Part): seq<byte> {
    var partEnd := part.offset + part.size - 1;
    var lo := if start > part.offset then start - part.offset else 0;
    var hi := if end < partEnd then end - part.offset + 1 else |part.data|;
    if lo < |part.data| && hi <= |part.data| && lo < hi then part.data[lo..hi] else []
  }

  /** One stream: the parts queued for it, the map key the writer asks for at each of its
      turns, and the byte range. A full download asks for the turn's own number; a range
      request asks for the part's index. */
  datatype Job = Job(parts: seq<Part>, want: seq<nat>, start: nat, end: int) {
    ghost predicate Valid() {
      && |want| == |parts|
      && (forall j, k :: 0 <= j < k < |parts| ==> parts[j].index < parts[k].index)
      && ((forall k :: 0 <= k < |parts| ==> want[k] == parts[k].index) ||
          (forall k :: 0 <= k < |parts| ==> want[k] == k))
    }

    /** Every turn of the writer asks for the part queued in that place. */
    ghost predicate Gapless() {
      |want| == |parts| && forall k :: 0 <= k < |parts| ==> want[k] == parts[k].index
    }

    function Piece(k: nat): seq<byte>
      requires k < |parts|
    {
      Slice(start, end, parts[k])
    }

    /** What has been sent after k turns. */
    function Sent(k: nat): seq<byte>
      requires k <= |parts|
    {
      if k == 0 then [] else Sent(k - 1) + Piece(k - 1)
    }
  }

  datatype Worker = Idle | Fetching(part: nat) | Exited

  datatype Outcome = Success | Cancelled | WorkerError | WriteError

  datatype Writer =
    | Head(turn: nat)
    | Waiting(turn: nat)
    | Writing(turn: nat, data: seq<byte>)
    | Deleting(turn: nat)
    | Joining
    | Returned(outcome: Outcome)

  datatype State = State(
    queued: nat,
    workers: seq<Worker>,
    resMap: map<nat, seq<byte>>,
    workerErr: bool,
    cancelled: bool,
    watching: bool,
    writer: Writer,
    out: seq<byte>,
    turns: seq<nat>)

  datatype Step =
    | Receive(w: nat)
    | SeeClosed(w: nat)
    | SeeCancel(w: nat)
    | FetchOk(w: nat)
    | FetchFail(w: nat)
    | Cancel
    | Watch
    | StopWatching
    | Check
    | WriteOk
    | WriteFail(sent: nat)
    | Delete
    | Join

  function Init(workers: nat): State {
    State(0, seq(workers, _ => Idle), map[], false, false, true, Head(0), [], [])
  }

  /** cond.Broadcast: a sleeping writer looks again. */
  function Wake(writer: Writer): Writer {
    if writer.Waiting? then Head(writer.turn) else writer
  }

  predicate Enabled(job: Job, s: State, step: Step)
    requires |job.want| == |job.parts|
  {
    match step
    case Receive(w) => w < |s.workers| && s.workers[w].Idle? && s.queued < |job.parts|
    case SeeClosed(w) => w < |s.workers| && s.workers[w].Idle? && s.queued == |job.parts|
    case SeeCancel(w) => w < |s.workers| && s.workers[w].Idle? && s.cancelled
    case FetchOk(w) => w < |s.workers| && s.workers[w].Fetching? && s.workers[w].part < |job.parts|
    case FetchFail(w) => w < |s.workers| && s.workers[w].Fetching? && s.workers[w].part < |job.parts|
    case Cancel => !s.cancelled
    case Watch => s.watching && s.cancelled
    case StopWatching => s.watching && s.writer.Returned?
    case Check => s.writer.Head? && s.writer.turn <= |job.parts|
    case WriteOk => s.writer.Writing? && s.writer.turn < |job.parts|
    case WriteFail(sent) => s.writer.Writing? && s.writer.turn < |job.parts|
    case Delete => s.writer.Deleting? && s.writer.turn < |job.parts|
    case Join => s.writer.Joining? && forall w :: 0 <= w < |s.workers| ==> s.workers[w].Exited?
  }

  /** What the writer sends of the data it found at its turn. */
  function Outgoing(job: Job, turn: nat, data: seq<byte>): seq<byte>
    requires turn < |job.parts|
  {
    Slice(job.start, job.end, job.parts[turn].(data := data))
  }

  function Do(job: Job, s: State, step: Step): State
    requires |job.want| == |job.parts| && Enabled(job, s, step)
  {
    match step
    case Receive(w) => s.(queued := s.queued + 1, workers := s.workers[w := Fetching(s.queued)])
    case SeeClosed(w) => s.(workers := s.workers[w := Exited])
    case SeeCancel(w) => s.(workers := s.workers[w := Exited])
    case FetchOk(w) =>
      var part := job.parts[s.workers[w].part];
      s.(workers := s.workers[w := Idle], resMap := s.resMap[part.index := part.data], writer := Wake(s.writer))
    case FetchFail(w) => s.(workers := s.workers[w := Exited], workerErr := true, writer := Wake(s.writer))
    case Cancel => s.(cancelled := true)
    case Watch => s.(watching := false, workerErr := true, writer := Wake(s.writer))
    case StopWatching => s.(watching := false)
    case Check =>
      var i := s.writer.turn;
      if i == |job.parts| then s.(writer := Joining)
      else if s.cancelled then s.(writer := Returned(Cancelled))
      else if s.workerErr then s.(writer := Returned(WorkerError))
      else if job.want[i] in s.resMap then s.(writer := Writing(i, s.resMap[job.want[i]]))
      else s.(writer := Waiting(i))
    case WriteOk =>
      var i := s.writer.turn;
      s.(writer := Deleting(i), out := s.out + Outgoing(job, i, s.writer.data), turns := s.turns + [i])
    case WriteFail(sent) =>
      var bytes := Outgoing(job, s.writer.turn, s.writer.data);
      s.(writer := Returned(WriteError), out := s.out + bytes[..Min(sent, |bytes|)])
    case Delete =>
      var i := s.writer.turn;
      s.(writer := Head(i + 1), resMap := s.resMap - {job.want[i]})
    case Join => s.(writer := Returned(Success))
  }

  // ----- safety -----

  /** The steps of the workers. */
  predicate ByWorker(step: Step) {
    step.Receive? || step.SeeClosed? || step.SeeCancel? || step.FetchOk? || step.FetchFail?
  }

  ghost predicate Held(s: State, k: nat) {
    exists w :: 0 <= w < |s.workers| && s.workers[w] == Fetching(k)
  }

  /** Turns whose data has left the map. */
  function Passed(job: Job, s: State): nat {
    match s.writer
    case Head(i) => i
    case Waiting(i) => i
    case Writing(i, _) => i
    case Deleting(i) => i
    case Joining => |job.parts|
    case Returned(_) => 0
  }

  ghost predicate WorkersOk(job: Job, s: State) {
    && s.queued <= |job.parts|
    && (forall w :: 0 <= w < |s.workers| && s.workers[w].Fetching? ==> s.workers[w].part < s.queued)
    && (forall w :: 0 <= w < |s.workers| && s.workers[w].Exited? ==>
          s.queued == |job.parts| || s.cancelled || s.workerErr)
  }

  ghost predicate MapOk(job: Job, s: State) {
    forall key :: key in s.resMap ==>
      exists k :: 0 <= k < |job.parts| && job.parts[k].index == key && s.resMap[key] == job.parts[k].data
  }

  /** Every part handed out and not yet sent is with a worker or in the map, unless a
      fetch has failed. */
  ghost predicate NothingLost(job: Job, s: State) {
    !s.workerErr && !s.writer.Returned? ==>
      forall k :: Passed(job, s) <= k < s.queued && k < |job.parts| ==> Held(s, k) || job.parts[k].index in s.resMap
  }

  ghost predicate WriterOk(job: Job, s: State)
    requires |job.want| == |job.parts|
  {
    && |s.turns| <= |job.parts|
    && (forall i :: 0 <= i < |s.turns| ==> s.turns[i] == i && job.want[i] == job.parts[i].index)
    && match s.writer
       case Head(i) => |s.turns| == i && s.out == job.Sent(i)
       case Waiting(i) =>
         && |s.turns| == i < |job.parts| && s.out == job.Sent(i)
         && !s.workerErr && job.want[i] !in s.resMap && (s.cancelled ==> s.watching)
       case Writing(i, data) =>
         && |s.turns| == i < |job.parts| && s.out == job.Sent(i)
         && data == job.parts[i].data && job.want[i] == job.parts[i].index
       case Deleting(i) => |s.turns| == i + 1 && s.out == job.Sent(i + 1)
       case Joining => |s.turns| == |job.parts| && s.out == job.Sent(|job.parts|)
       case Returned(Success) => |s.turns| == |job.parts| && s.out == job.Sent(|job.parts|)
       case Returned(WriteError) =>
         |s.turns| < |job.parts| && job.Sent(|s.turns|) <= s.out <= job.Sent(|s.turns| + 1)
       case Returned(_) => s.out == job.Sent(|s.turns|)
  }

  ghost predicate Inv(job: Job, s: State)
    requires |job.want| == |job.parts|
  {
    && |s.workers| > 0
    && WorkersOk(job, s) && MapOk(job, s) && NothingLost(job, s) && WriterOk(job, s) && WatcherOk(s)
  }

  ghost predicate WatcherOk(s: State) {
    && (!s.watching ==> s.workerErr || s.writer.Returned?)
    && (s.workerErr && !s.cancelled ==> s.watching || s.writer.Returned?)
  }

  lemma InitInv(job: Job, workers: nat)
    requires job.Valid() && workers > 0
    ensures Inv(job, Init(workers))
  {
  }

  /** When all earlier turns matched, data found under this turn's key is this turn's. */
  lemma TurnMatches(job: Job, s: State, i: nat)
    requires job.Valid() && MapOk(job, s) && i < |job.parts| && job.want[i] in s.resMap
    requires forall j :: 0 <= j < i ==> job.want[j] == job.parts[j].index
    ensures job.want[i] == job.parts[i].index && s.resMap[job.want[i]] == job.parts[i].data
  {
    var k :| 0 <= k < |job.parts| && job.parts[k].index == job.want[i] && s.resMap[job.want[i]] == job.parts[k].data;
    if job.want[i] != job.parts[i].index {
      IndexAtLeast(job, k);
    }
  }

  lemma {:induction false} IndexAtLeast(job: Job, k: nat)
    requires job.Valid() && k < |job.parts|
    ensures job.parts[k].index >= k
  {
    if k > 0 {
      IndexAtLeast(job, k - 1);
    }
  }

  lemma NothingLostWorker(job: Job, s: State, step: Step)
    requires job.Valid() && Inv(job, s) && Enabled(job, s, step)
    requires ByWorker(step)
    ensures NothingLost(job, Do(job, s, step))
  {
    hide WriterOk, MapOk;
    var t := Do(job, s, step);
    forall k | Passed(job, t) <= k < t.queued && k < |job.parts| && !t.workerErr && !t.writer.Returned?
      ensures Held(t, k) || job.parts[k].index in t.resMap
    {
      if k == s.queued {
        assert t.workers[step.w] == Fetching(k);
      } else if Held(s, k) {
        var w :| 0 <= w < |s.workers| && s.workers[w] == Fetching(k);
        assert w != step.w ==> t.workers[w] == Fetching(k);
      }
    }
  }

  lemma NothingLostOther(job: Job, s: State, step: Step)
    requires job.Valid() && Inv(job, s) && Enabled(job, s, step)
    requires !ByWorker(step)
    ensures NothingLost(job, Do(job, s, step))
  {
    hide MapOk;
    var t := Do(job, s, step);
    assert t.workers == s.workers && t.queued == s.queued;
    forall k | Passed(job, t) <= k < t.queued && k < |job.parts| && !t.workerErr && !t.writer.Returned?
      ensures Held(t, k) || job.parts[k].index in t.resMap
    {
      assert Held(s, k) ==> Held(t, k);
    }
  }

  lemma CheckStepOk(job: Job, s: State)
    requires job.Valid() && Inv(job, s) && Enabled(job, s, Check)
    ensures WriterOk(job, Do(job, s, Check))
  {
    EarlierTurnsMatched(job, s);
    hide NothingLost, WorkersOk, WriterOk, MapOk, Do;
    var i := s.writer.turn;
    if i < |job.parts| && job.want[i] in s.resMap {
      TurnMatches(job, s, i);
    }
    CheckWriterOk(job, s);
  }

  lemma EarlierTurnsMatched(job: Job, s: State)
    requires |job.want| == |job.parts| && WriterOk(job, s) && s.writer.Head?
    ensures s.writer.turn <= |job.parts| && forall j :: 0 <= j < s.writer.turn ==> job.want[j] == job.parts[j].index
  {
  }

  lemma CheckWriterOk(job: Job, s: State)
    requires |job.want| == |job.parts| && WriterOk(job, s) && WatcherOk(s) && Enabled(job, s, Check)
    requires var i := s.writer.turn;
             i < |job.parts| && job.want[i] in s.resMap ==>
               job.want[i] == job.parts[i].index && s.resMap[job.want[i]] == job.parts[i].data
    ensures WriterOk(job, Do(job, s, Check))
  {
    hide Slice;
  }

  lemma WriterStepOk(job: Job, s: State, step: Step)
    requires job.Valid() && Inv(job, s) && Enabled(job, s, step)
    requires step.WriteOk? || step.WriteFail? || step.Delete? || step.Join?
    ensures WriterOk(job, Do(job, s, step))
  {
    hide NothingLost, MapOk, WorkersOk, Slice;
    if s.writer.Writing? {
      SentNext(job, s);
      if step.WriteOk? {
        WriteOkStepOk(job, s);
      } else {
        WriteFailStepOk(job, s, step.sent);
      }
    }
  }

  /** What a writer in its turn is about to send is the next piece. */
  lemma SentNext(job: Job, s: State)
    requires |job.want| == |job.parts| && WriterOk(job, s) && s.writer.Writing? && s.writer.turn < |job.parts|
    ensures var i := s.writer.turn; job.Sent(i + 1) == job.Sent(i) + Outgoing(job, i, s.writer.data)
  {
    var i := s.writer.turn;
    hide Slice;
    assert job.parts[i].(data := s.writer.data) == job.parts[i];
  }

  lemma WriteOkStepOk(job: Job, s: State)
    requires |job.want| == |job.parts| && WriterOk(job, s) && s.writer.Writing? && Enabled(job, s, WriteOk)
    requires var i := s.writer.turn; job.Sent(i + 1) == job.Sent(i) + Outgoing(job, i, s.writer.data)
    ensures WriterOk(job, Do(job, s, WriteOk))
  {
    hide Slice, Outgoing;
  }

  lemma WriteFailStepOk(job: Job, s: State, sent: nat)
    requires |job.want| == |job.parts| && WriterOk(job, s) && s.writer.Writing? && Enabled(job, s, WriteFail(sent))
    requires var i := s.writer.turn; job.Sent(i + 1) == job.Sent(i) + Outgoing(job, i, s.writer.data)
    ensures WriterOk(job, Do(job, s, WriteFail(sent)))
  {
    hide Slice, Outgoing;
    var i := s.writer.turn;
    PartWritten(job.Sent(i), Outgoing(job, i, s.writer.data), sent);
  }

  lemma PartWritten(before: seq<byte>, bytes: seq<byte>, sent: nat)
    ensures before <= before + bytes[..Min(sent, |bytes|)] <= before + bytes
  {
  }

  lemma WakingStepOk(job: Job, s: State, step: Step)
    requires job.Valid() && WriterOk(job, s) && WatcherOk(s) && Enabled(job, s, step)
    requires ByWorker(step)
    ensures WriterOk(job, Do(job, s, step))
  {
    hide Outgoing, Slice;
  }

  lemma OtherStepOk(job: Job, s: State, step: Step)
    requires job.Valid() && WriterOk(job, s) && WatcherOk(s) && Enabled(job, s, step)
    requires step.Cancel? || step.Watch? || step.StopWatching?
    ensures WriterOk(job, Do(job, s, step))
  {
    hide Outgoing, Slice;
  }

  lemma WorkersStepOk(job: Job, s: State, step: Step)
    requires job.Valid() && WorkersOk(job, s) && Enabled(job, s, step)
    ensures var t := Do(job, s, step); |t.workers| == |s.workers| && WorkersOk(job, t)
  {
    if ByWorker(step) {
      OwnStepOk(job, s, step);
    } else {
      OthersKeepWorkers(job, s, step);
    }
    hide Do, Enabled;
  }

  lemma OwnStepOk(job: Job, s: State, step: Step)
    requires |job.want| == |job.parts| && WorkersOk(job, s) && Enabled(job, s, step) && ByWorker(step)
    ensures var t := Do(job, s, step); |t.workers| == |s.workers| && WorkersOk(job, t)
  {
    hide Outgoing, Wake;
  }

  lemma OthersKeepWorkers(job: Job, s: State, step: Step)
    requires |job.want| == |job.parts| && Enabled(job, s, step) && !ByWorker(step)
    ensures var t := Do(job, s, step);
      t.workers == s.workers && t.queued == s.queued && (s.cancelled ==> t.cancelled) && (s.workerErr ==> t.workerErr)
  {
    hide Outgoing, Wake;
  }

  lemma FewerInMap(job: Job, s: State, t: State)
    requires MapOk(job, s) && forall key :: key in t.resMap ==> key in s.resMap && t.resMap[key] == s.resMap[key]
    ensures MapOk(job, t)
  {
  }

  lemma FetchedInMap(job: Job, s: State, t: State, k: nat)
    requires MapOk(job, s) && k < |job.parts| && t.resMap == s.resMap[job.parts[k].index := job.parts[k].data]
    ensures MapOk(job, t)
  {
  }

  lemma StepMap(job: Job, s: State, step: Step)
    requires |job.want| == |job.parts| && Enabled(job, s, step)
    ensures var t := Do(job, s, step);
      if step.FetchOk? then
        var k := s.workers[step.w].part; t.resMap == s.resMap[job.parts[k].index := job.parts[k].data]
      else forall key :: key in t.resMap ==> key in s.resMap && t.resMap[key] == s.resMap[key]
  {
    hide Outgoing, Wake;
  }

  lemma MapStepOk(job: Job, s: State, step: Step)
    requires job.Valid() && MapOk(job, s) && Enabled(job, s, step)
    ensures MapOk(job, Do(job, s, step))
  {
    StepMap(job, s, step);
    hide MapOk, Do, Outgoing;
    if step.FetchOk? {
      FetchedInMap(job, s, Do(job, s, step), s.workers[step.w].part);
    } else {
      FewerInMap(job, s, Do(job, s, step));
    }
  }

  /** A sleeping writer has seen no error. */
  lemma WatcherStepOk(job: Job, s: State, step: Step)
    requires job.Valid() && WatcherOk(s) && Enabled(job, s, step)
    requires s.writer.Waiting? ==> !s.workerErr && (s.cancelled ==> s.watching)
    ensures WatcherOk(Do(job, s, step))
  {
    hide Outgoing;
  }

  lemma SharedStepOk(job: Job, s: State, step: Step)
    requires job.Valid() && Inv(job, s) && Enabled(job, s, step)
    ensures var t := Do(job, s, step); |t.workers| == |s.workers| && WorkersOk(job, t) && MapOk(job, t) && WatcherOk(t)
  {
    hide WorkersOk, MapOk, WatcherOk, NothingLost, Do, Enabled, Outgoing;
    WorkersStepOk(job, s, step);
    MapStepOk(job, s, step);
    WatcherStepOk(job, s, step);
  }

  lemma StepInv(job: Job, s: State, step: Step)
    requires job.Valid() && Inv(job, s) && Enabled(job, s, step)
    ensures Inv(job, Do(job, s, step))
  {
    SharedStepOk(job, s, step);
    if ByWorker(step) {
      NothingLostWorker(job, s, step);
      WakingStepOk(job, s, step);
    } else {
      NothingLostOther(job, s, step);
      match step {
        case Cancel => OtherStepOk(job, s, step);
        case Watch => OtherStepOk(job, s, step);
        case StopWatching => OtherStepOk(job, s, step);
        case Check => CheckStepOk(job, s);
        case _ => WriterStepOk(job, s, step);
      }
    }
    hide WriterOk, NothingLost, MapOk, WorkersOk, WatcherOk, Do;
  }

  // ----- runs -----

  ghost predicate IsRun(job: Job, s: State, run: seq<Step>)
    requires |job.want| == |job.parts|
    decreases |run|
  {
    run == [] || (Enabled(job, s, run[0]) && IsRun(job, Do(job, s, run[0]), run[1..]))
  }

  ghost function After(job: Job, s: State, run: seq<Step>): State
    requires |job.want| == |job.parts| && IsRun(job, s, run)
    decreases |run|
  {
    if run == [] then s else After(job, Do(job, s, run[0]), run[1..])
  }

  lemma {:induction false} RunInv(job: Job, s: State, run: seq<Step>)
    requires job.Valid() && Inv(job, s) && IsRun(job, s, run)
    ensures Inv(job, After(job, s, run))
    decreases |run|
  {
    if run != [] {
      StepInv(job, s, run[0]);
      RunInv(job, Do(job, s, run[0]), run[1..]);
    }
  }

  lemma {:induction false} SentGrows(job: Job, j: nat, k: nat)
    requires j <= k <= |job.parts|
    ensures job.Sent(j) <= job.Sent(k)
  {
    if j < k {
      SentGrows(job, j, k - 1);
    }
  }

  /** Safety: in every interleaving the bytes sent are a prefix of the stream, each turn is
      taken at most once and in order, and a return without error means all were taken. */
  lemma SentIsPrefix(job: Job, workers: nat, run: seq<Step>)
    requires job.Valid() && workers > 0 && IsRun(job, Init(workers), run)
    ensures var s := After(job, Init(workers), run);
      && s.out <= job.Sent(|job.parts|)
      && |s.turns| <= |job.parts| && (forall i :: 0 <= i < |s.turns| ==> s.turns[i] == i)
      && (s.writer == Returned(Success) ==> s.out == job.Sent(|job.parts|) && |s.turns| == |job.parts|)
  {
    InitInv(job, workers);
    RunInv(job, Init(workers), run);
    InvGivesPrefix(job, After(job, Init(workers), run));
  }

  lemma InvGivesPrefix(job: Job, s: State)
    requires |job.want| == |job.parts| && Inv(job, s)
    ensures s.out <= job.Sent(|job.parts|)
    ensures |s.turns| <= |job.parts| && (forall i :: 0 <= i < |s.turns| ==> s.turns[i] == i)
    ensures s.writer == Returned(Success) ==> s.out == job.Sent(|job.parts|) && |s.turns| == |job.parts|
  {
    hide MapOk, NothingLost, WorkersOk, WatcherOk;
    WriterGivesPrefix(job, s);
  }

  lemma WriterGivesPrefix(job: Job, s: State)
    requires |job.want| == |job.parts| && WriterOk(job, s)
    ensures s.out <= job.Sent(|job.parts|)
  {
    SentGrows(job, |s.turns|, |job.parts|);
    if |s.turns| < |job.parts| {
      SentGrows(job, |s.turns| + 1, |job.parts|);
    }
    hide Slice;
    match s.writer
    case Writing(i, _) => assert s.out == job.Sent(|s.turns|);
    case Returned(o) =>
      if o == WriteError {
        PrefixOfPrefix(s.out, job.Sent(|s.turns| + 1), job.Sent(|job.parts|));
      }
    case _ =>
  }

  lemma PrefixOfPrefix(a: seq<byte>, b: seq<byte>, c: seq<byte>)
    requires a <= b <= c
    ensures a <= c
  {
  }

  // ----- progress -----

  /** The steps that need something to go wrong outside: a failed fetch, a failed write to
      the client, a cancelled request. */
  predicate Faulty(step: Step) {
    step.FetchFail? || step.Cancel? || step.WriteFail?
  }

  /** Nothing can happen any more unless something goes wrong. */
  ghost predicate Stuck(job: Job, s: State)
    requires |job.want| == |job.parts|
  {
    forall step :: !Faulty(step) ==> !Enabled(job, s, step)
  }

  /** No wakeup is lost and the writer never waits with all workers gone: until it has
      returned there is a goroutine that can go on. */
  lemma Progress(job: Job, s: State) returns (step: Step)
    requires job.Valid() && job.Gapless() && Inv(job, s) && !s.writer.Returned?
    ensures Enabled(job, s, step) && !Faulty(step)
  {
    if w :| 0 <= w < |s.workers| && !s.workers[w].Exited? {
      step := if s.workers[w].Fetching? then FetchOk(w)
              else if s.queued < |job.parts| then Receive(w) else SeeClosed(w);
    } else {
      match s.writer {
        case Head(_) => step := Check;
        case Writing(_, _) => step := WriteOk;
        case Deleting(_) => step := Delete;
        case Joining => step := Join;
        case Waiting(i) =>
          assert s.workers[0].Exited? && !Held(s, i);
          step := Watch;
      }
    }
  }

  function Weight(workers: seq<Worker>): nat {
    if workers == [] then 0
    else (match workers[0] case Idle => 1 case Fetching(_) => 5 case Exited => 0) + Weight(workers[1..])
  }

  lemma {:induction false} WeightOfUpdate(workers: seq<Worker>, w: nat, x: Worker)
    requires w < |workers|
    ensures Weight(workers[w := x]) + Weight([workers[w]]) == Weight(workers) + Weight([x])
  {
    var updated := workers[w := x];
    if w == 0 {
      assert updated[1..] == workers[1..];
    } else {
      assert updated[1..] == workers[1..][w - 1 := x];
      WeightOfUpdate(workers[1..], w - 1, x);
    }
  }

  function WriterWeight(n: int, writer: Writer): int {
    match writer
    case Head(i) => 5 * (n - i) + 4
    case Waiting(i) => 5 * (n - i) + 3
    case Writing(i, _) => 5 * (n - i) + 3
    case Deleting(i) => 5 * (n - i) + 2
    case Joining => 1
    case Returned(_) => 0
  }

  /** An upper bound on the steps still to come. */
  function Measure(job: Job, s: State): int {
    7 * (|job.parts| - s.queued) + Weight(s.workers) + WriterWeight(|job.parts|, s.writer)
    + (if s.cancelled then 0 else 1) + (if s.watching then 3 else 0)
  }

  lemma MeasureNonNegative(job: Job, s: State)
    requires |job.want| == |job.parts| && Inv(job, s)
    ensures Measure(job, s) >= 0
  {
  }

  /** A worker's step costs its weight, and waking the writer costs less than that gains. */
  lemma WorkerMeasure(job: Job, s: State, step: Step)
    requires |job.want| == |job.parts| && Enabled(job, s, step) && ByWorker(step)
    ensures Measure(job, Do(job, s, step)) < Measure(job, s)
  {
    var t := Do(job, s, step);
    WeightOfUpdate(s.workers, step.w, t.workers[step.w]);
    assert WriterWeight(|job.parts|, t.writer) <= WriterWeight(|job.parts|, s.writer) + 1;
    assert Weight([Idle]) == 1 && Weight([Exited]) == 0 && Weight([Fetching(s.queued)]) == 5;
    assert s.workers[step.w].Fetching? ==> Weight([s.workers[step.w]]) == 5;
    hide Slice, Outgoing, Weight, WriterWeight, Wake;
  }

  lemma OtherMeasure(job: Job, s: State, step: Step)
    requires |job.want| == |job.parts| && Enabled(job, s, step) && !ByWorker(step)
    ensures Measure(job, Do(job, s, step)) < Measure(job, s)
  {
    hide Slice, Outgoing, Weight;
  }

  lemma MeasureDecreases(job: Job, s: State, step: Step)
    requires |job.want| == |job.parts| && Enabled(job, s, step)
    ensures Measure(job, Do(job, s, step)) < Measure(job, s)
  {
    hide *;
    if ByWorker(step) {
      WorkerMeasure(job, s, step);
    } else {
      OtherMeasure(job, s, step);
    }
  }

  lemma {:induction false} RunIsShort(job: Job, s: State, run: seq<Step>)
    requires job.Valid() && Inv(job, s) && IsRun(job, s, run)
    ensures |run| <= Measure(job, s)
    decreases |run|
  {
    MeasureNonNegative(job, s);
    if run != [] {
      StepInv(job, s, run[0]);
      MeasureDecreases(job, s, run[0]);
      RunIsShort(job, Do(job, s, run[0]), run[1..]);
    }
  }

  /** Every run is finite, and one that has come to its end has returned, whatever went
      wrong on the way. */
  lemma EveryRunReturns(job: Job, workers: nat, run: seq<Step>)
    requires job.Valid() && job.Gapless() && workers > 0 && IsRun(job, Init(workers), run)
    ensures |run| <= Measure(job, Init(workers))
    ensures Stuck(job, After(job, Init(workers), run)) ==> After(job, Init(workers), run).writer.Returned?
  {
    InitInv(job, workers);
    RunIsShort(job, Init(workers), run);
    RunInv(job, Init(workers), run);
    var s := After(job, Init(workers), run);
    if !s.writer.Returned? {
      var step := Progress(job, s);
    }
  }

  // ----- delivery -----

  ghost predicate Unharmed(s: State) {
    !s.cancelled && !s.workerErr && (s.writer.Returned? ==> s.writer.outcome == Success)
  }

  lemma {:induction false} FaultFreeIsUnharmed(job: Job, s: State, run: seq<Step>)
    requires |job.want| == |job.parts| && IsRun(job, s, run) && Unharmed(s)
    requires forall step :: step in run ==> !Faulty(step)
    ensures Unharmed(After(job, s, run))
    decreases |run|
  {
    if run != [] {
      assert run[0] in run;
      FaultFreeIsUnharmed(job, Do(job, s, run[0]), run[1..]);
    }
  }

  /** A run that is over and in which nothing went wrong. */
  ghost predicate QuietEnd(job: Job, s: State, run: seq<Step>)
    requires |job.want| == |job.parts|
  {
    IsRun(job, s, run) && (forall step :: step in run ==> !Faulty(step)) && Stuck(job, After(job, s, run))
  }

  lemma {:induction false} QuietEndExists(job: Job, s: State) returns (run: seq<Step>)
    requires job.Valid() && Inv(job, s)
    ensures QuietEnd(job, s, run)
    decreases Measure(job, s)
  {
    if step :| !Faulty(step) && Enabled(job, s, step) {
      StepInv(job, s, step);
      MeasureDecreases(job, s, step);
      MeasureNonNegative(job, s);
      var rest := QuietEndExists(job, Do(job, s, step));
      run := [step] + rest;
      assert run[1..] == rest;
    } else {
      run := [];
    }
  }

  /** Every run in which nothing goes wrong ends with the whole stream delivered. */
  ghost predicate Delivers(job: Job, workers: nat)
    requires |job.want| == |job.parts|
  {
    forall run :: QuietEnd(job, Init(workers), run) ==>
      var s := After(job, Init(workers), run); s.writer == Returned(Success) && s.out == job.Sent(|job.parts|)
  }

  /** The writer sleeps and all workers are gone. */
  ghost predicate Asleep(s: State) {
    s.writer.Waiting? && forall w :: 0 <= w < |s.workers| ==> s.workers[w].Exited?
  }

  /** Every run in which nothing goes wrong ends with the writer asleep for good. */
  ghost predicate Hangs(job: Job, workers: nat)
    requires |job.want| == |job.parts|
  {
    forall run :: QuietEnd(job, Init(workers), run) ==> Asleep(After(job, Init(workers), run))
  }

  /** When nothing goes wrong the whole stream is delivered if and only if every turn of
      the writer asks for the part queued in its place. Otherwise the writer sleeps for
      ever with all workers gone. There is a run in which nothing goes wrong. */
  lemma DeliversExactlyWhenGapless(job: Job, workers: nat)
    requires job.Valid() && workers > 0
    ensures job.Gapless() <==> Delivers(job, workers)
    ensures !job.Gapless() <==> Hangs(job, workers)
    ensures exists run :: QuietEnd(job, Init(workers), run)
  {
    InitInv(job, workers);
    var s0 := Init(workers);
    var run := QuietEndExists(job, s0);
    if job.Gapless() {
      GaplessDelivers(job, workers);
    } else {
      GapHangs(job, workers);
    }
    hide *;
    EitherWay(job, workers, run);
  }

  lemma EitherWay(job: Job, workers: nat, run: seq<Step>)
    requires |job.want| == |job.parts| && QuietEnd(job, Init(workers), run)
    ensures !(Delivers(job, workers) && Hangs(job, workers))
  {
  }

  lemma GaplessDelivers(job: Job, workers: nat)
    requires job.Valid() && workers > 0 && job.Gapless()
    ensures Delivers(job, workers)
  {
    var s0 := Init(workers);
    InitInv(job, workers);
    forall run | QuietEnd(job, s0, run)
      ensures var s := After(job, s0, run); s.writer == Returned(Success) && s.out == job.Sent(|job.parts|)
    {
      RunInv(job, s0, run);
      FaultFreeIsUnharmed(job, s0, run);
      EveryRunReturns(job, workers, run);
      InvGivesPrefix(job, After(job, s0, run));
    }
  }

  lemma GapHangs(job: Job, workers: nat)
    requires job.Valid() && workers > 0 && !job.Gapless()
    ensures Hangs(job, workers)
  {
    var s0 := Init(workers);
    InitInv(job, workers);
    forall run | QuietEnd(job, s0, run)
      ensures Asleep(After(job, s0, run))
    {
      var s := After(job, s0, run);
      RunInv(job, s0, run);
      FaultFreeIsUnharmed(job, s0, run);
      if s.writer.Returned? {
        OnlyGaplessSucceeds(job, s);
      }
      StuckIsAsleep(job, s);
    }
  }

  lemma StuckIsAsleep(job: Job, s: State)
    requires job.Valid() && Inv(job, s) && Stuck(job, s) && !s.writer.Returned?
    ensures Asleep(s)
  {
    hide MapOk, NothingLost, WatcherOk, Slice;
    forall w | 0 <= w < |s.workers| ensures s.workers[w].Exited? {
      assert !Enabled(job, s, FetchOk(w)) && !Enabled(job, s, Receive(w)) && !Enabled(job, s, SeeClosed(w));
    }
    assert !Enabled(job, s, Check) && !Enabled(job, s, WriteOk) && !Enabled(job, s, Delete) && !Enabled(job, s, Join);
  }

  lemma OnlyGaplessSucceeds(job: Job, s: State)
    requires job.Valid() && Inv(job, s) && s.writer == Returned(Success)
    ensures job.Gapless()
  {
  }
}
