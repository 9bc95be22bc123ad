/** Downloading to a file: workers take part rows, replicas included, from a queue and write
    each part at its offset, in whatever order fetches finish. */
module Assemble {
  import opened Bytes
  import OrderedWriter
  import Ranges

  type Part = OrderedWriter.Part

  datatype Worker = Idle | Fetching(part: nat) | Writing(part: nat) | Exited

  datatype Status = Active | Paused | Completed | Failed

  datatype State = State(buffer: seq<byte>, taken: nat, workers: seq<Worker>, errors: nat, cancelled: bool,
                         running: bool, status: Status)

  datatype Step =
    | Take(w: nat)
    | Leave(w: nat)
    | Fetch(w: nat)
    | FetchFails(w: nat)
    | Write(w: nat)
    | WriteFails(w: nat, n: nat)
    | Cancel(written: bool)
    | Unopened(written: bool)
    | Finish(written: bool)

  /** WriteAt within the file. */
  function Overwrite(buffer: seq<byte>, offset: nat, data: seq<byte>): seq<byte>
    requires offset + |data| <= |buffer|
  {
    buffer[..offset] + data + buffer[offset + |data|..]
  }

  function Zeros(n: nat): (z: seq<byte>)
    ensures |z| == n && forall i :: 0 <= i < n ==> z[i] == 0
  {
    if n == 0 then [] else Zeros(n - 1) + [0]
  }

  function Workers(n: nat): (ws: seq<Worker>)
    ensures |ws| == n && forall w :: 0 <= w < n ==> ws[w] == Idle
  {
    if n == 0 then [] else Workers(n - 1) + [Idle]
  }

  /** The output file, truncated to its size, before the first write. */
  function Init(size: nat, workers: nat): State {
    State(Zeros(size), 0, Workers(workers), 0, false, true, Active)
  }

  /** What fetchChunk returns for a row: its bytes of the file. Replicas are rows of their own. */
  ghost predicate PartsOf(parts: seq<Part>, file: seq<byte>) {
    forall k :: 0 <= k < |parts| ==> PartOf(parts[k], file)
  }

  predicate PartOf(part: Part, file: seq<byte>) {
    part.offset + |part.data| <= |file| && part.data == file[part.offset..part.offset + |part.data|]
  }

  ghost predicate Spans(part: Part, i: int) {
    part.offset <= i < part.offset + |part.data|
  }

  /** Some of the first n rows has byte i. */
  ghost predicate Covered(parts: seq<Part>, n: nat, i: int) {
    exists k :: 0 <= k < n && k < |parts| && Spans(parts[k], i)
  }

  ghost predicate CoverAll(parts: seq<Part>, file: seq<byte>) {
    forall i :: 0 <= i < |file| ==> Covered(parts, |parts|, i)
  }

  predicate Enabled(parts: seq<Part>, s: State, step: Step) {
    (s.running || step.Cancel?) &&
    match step
    case Take(w) => w < |s.workers| && s.workers[w].Idle? && s.taken < |parts|
    case Leave(w) => w < |s.workers| && s.workers[w].Idle? && (s.taken == |parts| || s.cancelled)
    case Fetch(w) => w < |s.workers| && s.workers[w].Fetching? && s.workers[w].part < |parts|
    case FetchFails(w) => w < |s.workers| && s.workers[w].Fetching?
    case Write(w) => w < |s.workers| && s.workers[w].Writing? && Fits(parts, s, s.workers[w].part)
    case WriteFails(w, n) =>
      w < |s.workers| && s.workers[w].Writing? && Fits(parts, s, s.workers[w].part) &&
        n <= |parts[s.workers[w].part].data|
    case Cancel(_) => true
    case Unopened(_) => s.taken == 0 && forall w :: 0 <= w < |s.workers| ==> s.workers[w].Idle?
    case Finish(_) => forall w :: 0 <= w < |s.workers| ==> s.workers[w].Exited?
  }

  /** The steps of the workers. */
  predicate ByWorker(step: Step) {
    !step.Cancel? && !step.Unopened? && !step.Finish?
  }

  predicate Fits(parts: seq<Part>, s: State, k: nat) {
    k < |parts| && parts[k].offset + |parts[k].data| <= |s.buffer|
  }

  /** A failing write may have written a prefix. The job ends well unless an error was sent,
      cancelled or not, or the output file could not be opened. A request to cancel the job
      marks it as paused even when it is over. */
  function Do(parts: seq<Part>, s: State, step: Step): State
    requires Enabled(parts, s, step)
  {
    match step
    case Take(w) => s.(taken := s.taken + 1, workers := s.workers[w := Fetching(s.taken)])
    case Leave(w) => s.(workers := s.workers[w := Exited])
    case Fetch(w) => s.(workers := s.workers[w := Writing(s.workers[w].part)])
    case FetchFails(w) => s.(workers := s.workers[w := Exited], errors := s.errors + 1)
    case Write(w) =>
      var part := parts[s.workers[w].part];
      s.(buffer := Overwrite(s.buffer, part.offset, part.data), workers := s.workers[w := Idle])
    case WriteFails(w, n) =>
      var part := parts[s.workers[w].part];
      s.(buffer := Overwrite(s.buffer, part.offset, part.data[..n]), workers := s.workers[w := Exited],
         errors := s.errors + 1)
    case Cancel(written) =>
      s.(cancelled := s.cancelled || s.running, status := if written then Paused else s.status)
    case Unopened(written) => s.(running := false, status := if written then Failed else s.status)
    case Finish(written) =>
      s.(running := false, status := if !written then s.status else if s.errors > 0 then Failed else Completed)
  }

  // ----- the invariant -----

  ghost predicate Landed(part: Part, buffer: seq<byte>, file: seq<byte>) {
    forall i :: 0 <= i < |buffer| && i < |file| && Spans(part, i) ==> buffer[i] == file[i]
  }

  ghost predicate InHand(s: State, k: nat) {
    exists w :: 0 <= w < |s.workers| && (s.workers[w] == Fetching(k) || s.workers[w] == Writing(k))
  }

  /** Bytes of no taken row are still zero. */
  ghost predicate Untouched(parts: seq<Part>, s: State) {
    forall i :: 0 <= i < |s.buffer| && !Covered(parts, s.taken, i) ==> s.buffer[i] == 0
  }

  ghost predicate Accounted(parts: seq<Part>, file: seq<byte>, s: State) {
    s.errors > 0 || forall k :: 0 <= k < s.taken && k < |parts| ==> InHand(s, k) || Landed(parts[k], s.buffer, file)
  }

  ghost predicate WorkersOk(parts: seq<Part>, s: State) {
    forall w :: 0 <= w < |s.workers| ==>
      && ((s.workers[w].Fetching? || s.workers[w].Writing?) ==> s.workers[w].part < s.taken)
      && (s.workers[w].Exited? ==> s.taken == |parts| || s.cancelled || s.errors > 0)
  }

  ghost predicate Inv(parts: seq<Part>, file: seq<byte>, s: State) {
    && |s.buffer| == |file| && s.taken <= |parts|
    && Untouched(parts, s) && Accounted(parts, file, s) && WorkersOk(parts, s)
    && (s.status == Completed ==>
          !s.running && s.errors == 0 && forall w :: 0 <= w < |s.workers| ==> s.workers[w].Exited?)
  }

  /** A write brings right bytes only, so what has landed stays. */
  lemma OverwriteAt(buffer: seq<byte>, offset: nat, data: seq<byte>, file: seq<byte>)
    requires |buffer| == |file| && offset + |data| <= |file| && data == file[offset..offset + |data|]
    ensures var b := Overwrite(buffer, offset, data);
            && |b| == |file|
            && (forall i :: 0 <= i < |file| ==> b[i] == if offset <= i < offset + |data| then file[i] else buffer[i])
  {
  }

  lemma LandedStays(part: Part, buffer: seq<byte>, offset: nat, data: seq<byte>, file: seq<byte>)
    requires |buffer| == |file| && offset + |data| <= |file| && data == file[offset..offset + |data|]
    requires Landed(part, buffer, file)
    ensures Landed(part, Overwrite(buffer, offset, data), file)
  {
    OverwriteAt(buffer, offset, data, file);
    hide Overwrite;
  }

  lemma WriteKeeps(parts: seq<Part>, file: seq<byte>, s: State, w: nat)
    requires PartsOf(parts, file) && Inv(parts, file, s) && Enabled(parts, s, Write(w))
    ensures Inv(parts, file, Do(parts, s, Write(w)))
  {
    var t := Do(parts, s, Write(w));
    var k := s.workers[w].part;
    assert PartOf(parts[k], file);
    OverwriteAt(s.buffer, parts[k].offset, parts[k].data, file);
    assert WorkersOk(parts, t);
    forall i | 0 <= i < |t.buffer| && !Covered(parts, t.taken, i) ensures t.buffer[i] == 0 {
      assert !Spans(parts[k], i);
    }
    if t.errors == 0 {
      forall j | 0 <= j < t.taken ensures InHand(t, j) || Landed(parts[j], t.buffer, file) {
        if j != k {
          KeepsHand(s, t, w, j);
          if Landed(parts[j], s.buffer, file) {
            LandedStays(parts[j], s.buffer, parts[k].offset, parts[k].data, file);
          }
        }
      }
    }
  }

  /** A worker's move leaves every other part in the hand it is in. */
  lemma KeepsHand(s: State, t: State, w: nat, j: nat)
    requires w < |s.workers| && |t.workers| == |s.workers| && t.workers == s.workers[w := t.workers[w]]
    requires s.workers[w] != Fetching(j) && s.workers[w] != Writing(j)
    ensures InHand(s, j) ==> InHand(t, j)
  {
    if v :| 0 <= v < |s.workers| && (s.workers[v] == Fetching(j) || s.workers[v] == Writing(j)) {
      assert t.workers[v] == s.workers[v];
    }
  }

  lemma FailedWriteKeeps(parts: seq<Part>, file: seq<byte>, s: State, w: nat, n: nat)
    requires PartsOf(parts, file) && Inv(parts, file, s) && Enabled(parts, s, WriteFails(w, n))
    ensures Inv(parts, file, Do(parts, s, WriteFails(w, n)))
  {
    var t := Do(parts, s, WriteFails(w, n));
    var k := s.workers[w].part;
    assert PartOf(parts[k], file);
    SlicePrefix(file, parts[k].offset, |parts[k].data|, n);
    OverwriteAt(s.buffer, parts[k].offset, parts[k].data[..n], file);
    forall i | 0 <= i < |t.buffer| && !Covered(parts, t.taken, i) ensures t.buffer[i] == 0 {
      assert !Spans(parts[k], i);
    }
  }

  lemma SlicePrefix(s: seq<byte>, o: nat, m: nat, n: nat)
    requires o + m <= |s| && n <= m
    ensures s[o..o + m][..n] == s[o..o + n]
  {
  }

  lemma TakeKeeps(parts: seq<Part>, file: seq<byte>, s: State, w: nat)
    requires Inv(parts, file, s) && Enabled(parts, s, Take(w))
    ensures Inv(parts, file, Do(parts, s, Take(w)))
  {
    var t := Do(parts, s, Take(w));
    assert t.workers[w] == Fetching(s.taken);
    assert InHand(t, s.taken);
    forall j | 0 <= j < s.taken ensures InHand(s, j) ==> InHand(t, j) {
      KeepsHand(s, t, w, j);
    }
  }

  lemma FetchKeeps(parts: seq<Part>, file: seq<byte>, s: State, w: nat)
    requires Inv(parts, file, s) && Enabled(parts, s, Fetch(w))
    ensures Inv(parts, file, Do(parts, s, Fetch(w)))
  {
    var t := Do(parts, s, Fetch(w));
    assert t.workers[w] == Writing(s.workers[w].part);
    forall j | 0 <= j < s.taken ensures InHand(s, j) ==> InHand(t, j) {
      if j != s.workers[w].part {
        KeepsHand(s, t, w, j);
      }
    }
  }

  lemma StepInv(parts: seq<Part>, file: seq<byte>, s: State, step: Step)
    requires PartsOf(parts, file) && Inv(parts, file, s) && Enabled(parts, s, step)
    ensures Inv(parts, file, Do(parts, s, step))
  {
    var t := Do(parts, s, step);
    match step
    case Take(w) => TakeKeeps(parts, file, s, w);
    case Fetch(w) => FetchKeeps(parts, file, s, w);
    case Write(w) => WriteKeeps(parts, file, s, w);
    case WriteFails(w, n) => FailedWriteKeeps(parts, file, s, w, n);
    case Leave(w) =>
      forall j | 0 <= j < s.taken ensures InHand(s, j) ==> InHand(t, j) {
        KeepsHand(s, t, w, j);
      }
    case FetchFails(_) =>
    case Cancel(_) => assert forall j :: InHand(s, j) ==> InHand(t, j);
    case Unopened(_) => assert forall j :: InHand(s, j) ==> InHand(t, j);
    case Finish(_) => assert forall j :: InHand(s, j) ==> InHand(t, j);
  }

  ghost predicate IsRun(parts: seq<Part>, s: State, run: seq<Step>)
    decreases |run|
  {
    run == [] || (Enabled(parts, s, run[0]) && IsRun(parts, Do(parts, s, run[0]), run[1..]))
  }

  ghost function After(parts: seq<Part>, s: State, run: seq<Step>): State
    requires IsRun(parts, s, run)
    decreases |run|
  {
    if run == [] then s else After(parts, Do(parts, s, run[0]), run[1..])
  }

  lemma {:induction false} RunInv(parts: seq<Part>, file: seq<byte>, s: State, run: seq<Step>)
    requires PartsOf(parts, file) && Inv(parts, file, s) && IsRun(parts, s, run)
    ensures Inv(parts, file, After(parts, s, run))
    decreases |run|
  {
    hide Inv, Do, Enabled, PartsOf;
    if run != [] {
      StepInv(parts, file, s, run[0]);
      RunInv(parts, file, Do(parts, s, run[0]), run[1..]);
    }
  }

  // ----- what a finished download holds -----

  /** The bytes of the rows that were taken, and zeros elsewhere. */
  ghost predicate HoldsTaken(parts: seq<Part>, file: seq<byte>, s: State) {
    |s.buffer| == |file| &&
    forall i :: 0 <= i < |file| ==> s.buffer[i] == if Covered(parts, s.taken, i) then file[i] else 0
  }

  lemma CompletedHoldsTaken(parts: seq<Part>, file: seq<byte>, s: State)
    requires Inv(parts, file, s) && s.status == Completed
    ensures HoldsTaken(parts, file, s)
  {
    forall i | 0 <= i < |file| && Covered(parts, s.taken, i) ensures s.buffer[i] == file[i] {
      var k :| 0 <= k < s.taken && k < |parts| && Spans(parts[k], i);
      assert !InHand(s, k);
      assert Landed(parts[k], s.buffer, file);
    }
  }

  /** In whatever order the parts arrive, a download marked completed holds exactly the rows
      that were taken; so it is the file when the queue was drained, which an uncancelled one
      always did, and otherwise only if the rows left behind held nothing but zeros. */
  lemma CompletedIsTheFile(parts: seq<Part>, file: seq<byte>, workers: nat, run: seq<Step>)
    requires PartsOf(parts, file) && CoverAll(parts, file) && workers > 0 && IsRun(parts, Init(|file|, workers), run)
    ensures var s := After(parts, Init(|file|, workers), run);
            s.status == Completed ==>
              && HoldsTaken(parts, file, s)
              && (!s.cancelled ==> s.taken == |parts|)
              && (s.taken == |parts| ==> s.buffer == file)
              && (s.buffer == file <==> forall i :: 0 <= i < |file| && !Covered(parts, s.taken, i) ==> file[i] == 0)
  {
    InitInv(parts, file, workers);
    RunInv(parts, file, Init(|file|, workers), run);
    RunKeepsWorkers(parts, Init(|file|, workers), run);
    var s := After(parts, Init(|file|, workers), run);
    if s.status == Completed {
      CompletedHoldsTaken(parts, file, s);
      assert s.workers[0].Exited?;
      hide After, IsRun, Init;
    }
  }

  /** All rows of a file, over all its servers, cover it when those of one server tile it. */
  lemma TilesCover(tiles: seq<Part>, parts: seq<Part>, file: seq<byte>)
    requires Ranges.Tiles(tiles, file) && forall p :: p in tiles ==> p in parts
    ensures CoverAll(parts, file)
  {
    forall i | 0 <= i < |file| ensures Covered(parts, |parts|, i) {
      var a := Ranges.PartWithByte(tiles, file, |tiles|, i);
      assert tiles[a] in parts;
      var k :| 0 <= k < |parts| && parts[k] == tiles[a];
      assert Ranges.TileOf(tiles[a], a, file);
      assert Spans(parts[k], i);
    }
  }

  lemma InitInv(parts: seq<Part>, file: seq<byte>, workers: nat)
    ensures Inv(parts, file, Init(|file|, workers))
  {
  }

  lemma {:induction false} RunKeepsWorkers(parts: seq<Part>, s: State, run: seq<Step>)
    requires IsRun(parts, s, run)
    ensures |After(parts, s, run).workers| == |s.workers|
    decreases |run|
  {
    if run != [] {
      RunKeepsWorkers(parts, Do(parts, s, run[0]), run[1..]);
    }
  }

  /** Cancelling before any part is taken: the job is marked completed with an all-zero file. */
  lemma CancelledIsCompleted(part: Part)
    requires part.offset == 0 && part.data == [1]
    ensures var run := [Cancel(true), Leave(0), Finish(true)];
            && PartsOf([part], [1]) && CoverAll([part], [1])
            && IsRun([part], Init(1, 1), run)
            && After([part], Init(1, 1), run).status == Completed && After([part], Init(1, 1), run).buffer == [0]
  {
    var parts := [part];
    assert Spans(parts[0], 0);
    var s0 := Init(1, 1);
    assert s0.workers == [Idle] && s0.buffer == [0];
    var s1 := Do(parts, s0, Cancel(true));
    var s2 := Do(parts, s1, Leave(0));
    assert s2.workers == [Exited];
    var s3 := Do(parts, s2, Finish(true));
    assert IsRun(parts, s3, []) && After(parts, s3, []) == s3;
    assert [Finish(true)][1..] == [];
    assert IsRun(parts, s2, [Finish(true)]) && After(parts, s2, [Finish(true)]) == s3;
    assert [Leave(0), Finish(true)][1..] == [Finish(true)];
    assert IsRun(parts, s1, [Leave(0), Finish(true)]) && After(parts, s1, [Leave(0), Finish(true)]) == s3;
    assert [Cancel(true), Leave(0), Finish(true)][1..] == [Leave(0), Finish(true)];
  }

  /** A worker sends at most one error and goes, so the channel of one slot per worker never
      fills up before it. */
  lemma {:induction false} ErrorsFit(parts: seq<Part>, file: seq<byte>, workers: nat, run: seq<Step>)
    requires IsRun(parts, Init(|file|, workers), run)
    ensures var s := After(parts, Init(|file|, workers), run); s.errors <= Gone(s.workers) && |s.workers| == workers
  {
    assert Gone(Workers(workers)) >= 0;
    RunKeepsGone(parts, Init(|file|, workers), run);
    RunKeepsWorkers(parts, Init(|file|, workers), run);
  }

  function Gone(ws: seq<Worker>): nat {
    if ws == [] then 0 else (if ws[0].Exited? then 1 else 0) + Gone(ws[1..])
  }

  lemma {:induction false} GoneUpdate(ws: seq<Worker>, w: nat, x: Worker)
    requires w < |ws| && !ws[w].Exited?
    ensures Gone(ws[w := x]) == Gone(ws) + (if x.Exited? then 1 else 0) <= |ws|
  {
    if w == 0 {
      assert ws[0 := x][1..] == ws[1..];
      GoneAtMost(ws[1..]);
    } else {
      assert ws[w := x][1..] == ws[1..][w - 1 := x];
      GoneUpdate(ws[1..], w - 1, x);
    }
  }

  lemma {:induction false} GoneAtMost(ws: seq<Worker>)
    ensures Gone(ws) <= |ws|
  {
    if ws != [] {
      GoneAtMost(ws[1..]);
    }
  }

  lemma {:induction false} RunKeepsGone(parts: seq<Part>, s: State, run: seq<Step>)
    requires IsRun(parts, s, run) && s.errors <= Gone(s.workers)
    ensures var t := After(parts, s, run); t.errors <= Gone(t.workers)
    decreases |run|
  {
    if run != [] {
      var t := Do(parts, s, run[0]);
      if ByWorker(run[0]) {
        GoneUpdate(s.workers, run[0].w, t.workers[run[0].w]);
      }
      RunKeepsGone(parts, t, run[1..]);
    }
  }

  /** So a worker about to send an error finds room. */
  lemma SendHasRoom(parts: seq<Part>, file: seq<byte>, workers: nat, run: seq<Step>, w: nat)
    requires IsRun(parts, Init(|file|, workers), run)
    requires var s := After(parts, Init(|file|, workers), run); w < |s.workers| && !s.workers[w].Exited?
    ensures After(parts, Init(|file|, workers), run).errors < workers
  {
    ErrorsFit(parts, file, workers, run);
    var s := After(parts, Init(|file|, workers), run);
    GoneUpdate(s.workers, w, Exited);
    GoneAtMost(s.workers[w := Exited]);
  }

  // ----- every download ends -----

  /** The steps that need something to go wrong outside, or someone to cancel. */
  predicate Faulty(step: Step) {
    step.FetchFails? || step.WriteFails? || step.Cancel? || step.Unopened? || (step.Finish? && !step.written)
  }

  function Load(w: Worker): nat {
    match w
    case Idle => 1
    case Fetching(_) => 3
    case Writing(_) => 2
    case Exited => 0
  }

  function Loads(ws: seq<Worker>): nat {
    if ws == [] then 0 else Load(ws[0]) + Loads(ws[1..])
  }

  lemma {:induction false} LoadsUpdate(ws: seq<Worker>, w: nat, x: Worker)
    requires w < |ws|
    ensures Loads(ws[w := x]) + Load(ws[w]) == Loads(ws) + Load(x)
  {
    if w == 0 {
      assert ws[0 := x][1..] == ws[1..];
    } else {
      assert ws[w := x][1..] == ws[1..][w - 1 := x];
      LoadsUpdate(ws[1..], w - 1, x);
    }
  }

  /** The most steps a download has left, not counting requests to cancel it. */
  function Effort(parts: seq<Part>, s: State): int {
    if s.running then 3 * (|parts| - s.taken) + Loads(s.workers) + 1 else 0
  }

  function OwnSteps(run: seq<Step>): nat {
    if run == [] then 0 else (if run[0].Cancel? then 0 else 1) + OwnSteps(run[1..])
  }

  lemma StepCosts(parts: seq<Part>, s: State, step: Step)
    requires s.taken <= |parts| && Enabled(parts, s, step)
    ensures var t := Do(parts, s, step);
            t.taken <= |parts| && 0 <= Effort(parts, t) && Effort(parts, t) + OwnSteps([step]) <= Effort(parts, s)
  {
    var t := Do(parts, s, step);
    assert [step][1..] == [];
    if ByWorker(step) {
      LoadsUpdate(s.workers, step.w, t.workers[step.w]);
    }
    hide Overwrite, Loads;
  }

  lemma {:induction false} RunCosts(parts: seq<Part>, s: State, run: seq<Step>)
    requires s.taken <= |parts| && IsRun(parts, s, run)
    ensures OwnSteps(run) <= Effort(parts, s)
    decreases |run|
  {
    if run == [] {
    } else {
      StepCosts(parts, s, run[0]);
      assert OwnSteps(run) == OwnSteps([run[0]]) + OwnSteps(run[1..]) by {
        assert [run[0]][1..] == [];
      }
      hide Do, Enabled, Effort, OwnSteps;
      RunCosts(parts, Do(parts, s, run[0]), run[1..]);
    }
  }

  lemma {:induction false} LoadsOfIdle(n: nat)
    ensures Loads(Workers(n)) == n
  {
    if n > 0 {
      LoadsOfIdle(n - 1);
      LoadsSnoc(Workers(n - 1), Idle);
    }
  }

  lemma {:induction false} LoadsSnoc(ws: seq<Worker>, x: Worker)
    ensures Loads(ws + [x]) == Loads(ws) + Load(x)
  {
    if ws != [] {
      assert (ws + [x])[1..] == ws[1..] + [x];
      LoadsSnoc(ws[1..], x);
    }
  }

  /** Nothing can happen any more unless something goes wrong. */
  ghost predicate Stuck(parts: seq<Part>, s: State) {
    forall step :: !Faulty(step) ==> !Enabled(parts, s, step)
  }

  lemma Progress(parts: seq<Part>, file: seq<byte>, s: State) returns (step: Step)
    requires PartsOf(parts, file) && Inv(parts, file, s) && s.running
    ensures Enabled(parts, s, step) && !Faulty(step)
  {
    if w :| 0 <= w < |s.workers| && !s.workers[w].Exited? {
      match s.workers[w] {
        case Idle => step := if s.taken < |parts| then Take(w) else Leave(w);
        case Fetching(_) => step := Fetch(w);
        case Writing(k) =>
          assert PartOf(parts[k], file);
          step := Write(w);
      }
    } else {
      step := Finish(true);
    }
  }

  /** Every download ends: its own steps are bounded, and one that can go no further is over,
      whatever went wrong on the way and however often it was cancelled. */
  lemma EveryDownloadEnds(parts: seq<Part>, file: seq<byte>, workers: nat, run: seq<Step>)
    requires PartsOf(parts, file) && IsRun(parts, Init(|file|, workers), run)
    ensures OwnSteps(run) <= 3 * |parts| + workers + 1
    ensures Stuck(parts, After(parts, Init(|file|, workers), run)) ==> !After(parts, Init(|file|, workers), run).running
  {
    RunCosts(parts, Init(|file|, workers), run);
    LoadsOfIdle(workers);
    InitInv(parts, file, workers);
    RunInv(parts, file, Init(|file|, workers), run);
    var s := After(parts, Init(|file|, workers), run);
    if s.running {
      var step := Progress(parts, file, s);
    }
  }

  ghost predicate Unharmed(s: State) {
    s.errors == 0 && !s.cancelled && (!s.running ==> s.status == Completed)
  }

  lemma {:induction false} QuietIsUnharmed(parts: seq<Part>, s: State, run: seq<Step>)
    requires IsRun(parts, s, run) && Unharmed(s) && forall step :: step in run ==> !Faulty(step)
    ensures Unharmed(After(parts, s, run))
    decreases |run|
  {
    if run != [] {
      assert run[0] in run;
      QuietIsUnharmed(parts, Do(parts, s, run[0]), run[1..]);
    }
  }

  /** When nothing goes wrong and nobody cancels, a download that is over is marked completed
      and is the file. */
  lemma QuietDownloadIsTheFile(parts: seq<Part>, file: seq<byte>, workers: nat, run: seq<Step>)
    requires PartsOf(parts, file) && CoverAll(parts, file) && workers > 0 && IsRun(parts, Init(|file|, workers), run)
    requires (forall step :: step in run ==> !Faulty(step)) && Stuck(parts, After(parts, Init(|file|, workers), run))
    ensures var s := After(parts, Init(|file|, workers), run); s.status == Completed && s.buffer == file
  {
    hide PartsOf, CoverAll, Stuck, Faulty, Enabled, Do;
    EveryDownloadEnds(parts, file, workers, run);
    QuietIsUnharmed(parts, Init(|file|, workers), run);
    CompletedIsTheFile(parts, file, workers, run);
  }

  predicate Pauses(run: seq<Step>) {
    run != [] && (run[0] == Cancel(true) || Pauses(run[1..]))
  }

  /** A download that is over changes no more but for its status, which is kept exactly when no
      later request to cancel it is written down, or it was marked as paused before. */
  lemma {:induction false} OverForGood(parts: seq<Part>, s: State, run: seq<Step>)
    requires IsRun(parts, s, run) && !s.running
    ensures After(parts, s, run) == s.(status := if Pauses(run) then Paused else s.status)
    ensures After(parts, s, run).status == s.status <==> !Pauses(run) || s.status == Paused
    ensures OwnSteps(run) == 0
    decreases |run|
  {
    if run != [] {
      assert run[0].Cancel?;
      var t := Do(parts, s, run[0]);
      assert t == s.(status := if run[0] == Cancel(true) then Paused else s.status);
      hide Do, Enabled;
      OverForGood(parts, t, run[1..]);
    }
  }

  /** The writes of one download, done on the file in the order they finished. */
  method WriteParts(out: array<byte>, parts: seq<Part>, order: seq<nat>, ghost file: seq<byte>)
    requires PartsOf(parts, file) && CoverAll(parts, file) && out.Length == |file|
    requires forall m :: 0 <= m < |order| ==> order[m] < |parts|
    requires forall k :: 0 <= k < |parts| ==> k in order
    modifies out
    ensures out[..] == file
  {
    for n := 0 to |order|
      invariant forall m :: 0 <= m < n ==> Landed(parts[order[m]], out[..], file)
    {
      assert PartOf(parts[order[n]], file);
      WriteAt(out, parts[order[n]].offset, parts[order[n]].data, file);
    }
    forall i | 0 <= i < |file| ensures out[i] == file[i] {
      assert Covered(parts, |parts|, i);
      var k: nat :| k < |parts| && Spans(parts[k], i);
      assert k in order;
      var m :| 0 <= m < |order| && order[m] == k;
      assert Landed(parts[order[m]], out[..], file);
      assert out[..][i] == out[i];
    }
  }

  lemma OverwriteNext(buffer: seq<byte>, offset: nat, data: seq<byte>, i: nat)
    requires offset + |data| <= |buffer| && i < |data|
    ensures Overwrite(buffer, offset, data[..i + 1]) == Overwrite(buffer, offset, data[..i])[offset + i := data[i]]
  {
  }

  method WriteAt(out: array<byte>, offset: nat, data: seq<byte>, ghost file: seq<byte>)
    requires offset + |data| <= out.Length == |file| && data == file[offset..offset + |data|]
    modifies out
    ensures out[..] == Overwrite(old(out[..]), offset, data)
    ensures forall part: Part :: Landed(part, old(out[..]), file) ==> Landed(part, out[..], file)
    ensures forall part: Part :: part.offset == offset && part.data == data ==> Landed(part, out[..], file)
  {
    for i := 0 to |data|
      invariant out[..] == Overwrite(old(out[..]), offset, data[..i])
    {
      OverwriteNext(old(out[..]), offset, data, i);
      out[offset + i] := data[i];
    }
    assert data[..|data|] == data;
    OverwriteAt(old(out[..]), offset, data, file);
    hide Overwrite;
  }
}
