/** What a caller can rely on about a job: its counts, its error channel, the gate it passes
    before it is called completed, and that it ends. */
module UploadJobs {
  import opened Wrappers
  import opened Collections
  import opened Upload
  import opened UploadRuns

  /** Pending, failed and completed copies always make up TotalChunks. */
  lemma CountsSum(s: State, j: nat)
    requires Inv(s) && j in s.jobs
    ensures var rows := s.jobs[j].rows;
            |WithStatus(s, rows, Pending)| + |WithStatus(s, rows, Failed)| + |WithStatus(s, rows, Completed)|
            == s.jobs[j].total
  {
    assert JobOk(s, j);
    StatusesPartition(s, s.jobs[j].rows);
  }

  lemma StatusesPartition(s: State, rows: set<nat>)
    requires forall r :: r in rows ==> r in s.rows
    ensures |WithStatus(s, rows, Pending)| + |WithStatus(s, rows, Failed)| + |WithStatus(s, rows, Completed)| == |rows|
  {
    var p, f, c := WithStatus(s, rows, Pending), WithStatus(s, rows, Failed), WithStatus(s, rows, Completed);
    forall r | r in rows ensures r in p + f + c {
      assert s.rows[r].status == Pending || s.rows[r].status == Failed || s.rows[r].status == Completed;
    }
    ThreeWays(rows, p, f, c);
  }

  lemma ThreeWays(all: set<nat>, a: set<nat>, b: set<nat>, c: set<nat>)
    requires all == a + b + c && a !! b && a !! c && b !! c
    ensures |a| + |b| + |c| == |all|
  {
    assert a !! (b + c);
  }

  /** A worker about to report an error finds room: the channel holds one error per part and
      one more, and the part in hand is not among those already reported. */
  lemma SendsNeverBlock(s: State, j: nat, w: nat)
    requires Inv(s) && At(s, j, w) && Holds(Pc(s, j, w))
    ensures s.jobs[j].errors + 1 <= |s.jobs[j].rows|
  {
    TotalAtLeast(s.jobs[j].workers, w, Held);
  }

  lemma {:induction false} TotalAtLeast(ws: seq<Worker>, w: nat, f: Worker -> nat)
    requires w < |ws|
    ensures f(ws[w]) <= Total(ws, f)
  {
    if w > 0 {
      TotalAtLeast(ws[1..], w - 1, f);
    }
  }

  /** In every run, a job marked completed raised no error and has every part stored. */
  lemma CompletedMeansStored(steps: seq<Step>, j: nat)
    requires IsRun(EMPTY, steps) && j in After(EMPTY, steps).jobs
    ensures var s := After(EMPTY, steps);
            s.jobs[j].status == JobCompleted ==>
              s.jobs[j].errors == 0 && forall r :: r in s.jobs[j].rows ==> r in s.rows && s.rows[r].status == Completed
  {
    EmptyInv();
    RunKeeps(EMPTY, steps);
    var s := After(EMPTY, steps);
    assert JobOk(s, j);
    if s.jobs[j].status == JobCompleted {
      forall r | r in s.jobs[j].rows ensures r in s.rows && s.rows[r].status == Completed {
        assert r in Done(s, j);
      }
    }
  }

  /** The gate, when the database answers: completed exactly when no error was raised and
      every part is stored; and with no error and no cancellation every part is. */
  lemma GateIsExact(s: State, j: nat)
    requires Inv(s) && Enabled(s, Finish(j, true, true))
    ensures var after := Do(s, Finish(j, true, true)).jobs[j].status; var job := s.jobs[j];
            && (after == JobCompleted <==> job.errors == 0 && Done(s, j) == job.rows)
            && (after != JobCompleted <==> after == JobFailed)
            && (job.errors == 0 && !job.cancelled ==> after == JobCompleted)
            && job.errors + |job.queue| + |Done(s, j)| == job.total
  {
    var job := s.jobs[j];
    TotalOfNone(job.workers, Held);
    if |Done(s, j)| >= job.total {
      AllOf(Done(s, j), job.rows);
    }
    assert job.workers[0].Exited?;
  }

  /** A restart drops the goroutines of a job, and a request to cancel it marks it as paused,
      even when it is over; nothing else about it changes any more. */
  function Stopped(job: Job, now: Job): Job {
    job.(queue := now.queue, workers := now.workers, status := now.status)
  }

  /** Some request to cancel the job gets its mark into the table. */
  predicate Pauses(steps: seq<Step>, j: nat) {
    steps != [] && (steps[0] == Cancel(j, true) || Pauses(steps[1..], j))
  }

  lemma StoppedStays(s: State, step: Step, j: nat)
    requires Enabled(s, step) && j in s.jobs && !s.jobs[j].running
    ensures var t := Do(s, step); j in t.jobs && t.jobs[j] == Stopped(s.jobs[j], t.jobs[j])
    ensures Do(s, step).jobs[j].status == if step == Cancel(j, true) then JobPaused else s.jobs[j].status
    ensures !(step.Work? && step.job == j)
  {
    hide Moved;
    match step
    case Work(k, w, move) => MoveLeaves(s, k, w, move, j);
    case Finish(_, _, _) =>
    case Start(_, _) =>
    case Cancel(_, _) =>
    case Unopened(_, _) =>
    case Refresh(_) =>
    case Restart =>
  }

  lemma MoveLeaves(s: State, k: nat, w: nat, move: Move, j: nat)
    requires CanMove(s, k, w, move) && j in s.jobs && j != k
    ensures var t := Moved(s, k, w, move); j in t.jobs && t.jobs[j] == s.jobs[j]
  {
  }

  /** A job that is over makes no more moves and keeps its record, whatever is done. Its status,
      COMPLETED included, is kept exactly when no later request to cancel it is written down, or
      it was marked as paused before. */
  lemma {:induction false} OverForGood(s: State, steps: seq<Step>, j: nat)
    requires IsRun(s, steps) && j in s.jobs && !s.jobs[j].running
    ensures var t := After(s, steps);
            && j in t.jobs && t.jobs[j] == Stopped(s.jobs[j], t.jobs[j])
            && t.jobs[j].status == (if Pauses(steps, j) then JobPaused else s.jobs[j].status)
            && (t.jobs[j].status == s.jobs[j].status <==> !Pauses(steps, j) || s.jobs[j].status == JobPaused)
    ensures OwnMoves(steps, j) == 0
    decreases |steps|
  {
    if steps != [] {
      StoppedStays(s, steps[0], j);
      hide Do, Enabled;
      OverForGood(Do(s, steps[0]), steps[1..], j);
    }
  }

  lemma MoveKeepsStatus(s: State, j: nat, w: nat, move: Move)
    requires CanMove(s, j, w, move)
    ensures var t := Moved(s, j, w, move);
            j in t.jobs && t.jobs[j].status == s.jobs[j].status && t.jobs[j].running == s.jobs[j].running
  {
  }

  lemma StepStatus(s: State, step: Step, j: nat)
    requires Enabled(s, step) && j in s.jobs
    ensures j in Do(s, step).jobs
    ensures Do(s, step).jobs[j].running ==>
              && s.jobs[j].running
              && Do(s, step).jobs[j].status == if step == Cancel(j, true) then JobPaused else s.jobs[j].status
  {
    hide Moved;
    match step
    case Work(k, w, move) =>
      if k == j {
        MoveKeepsStatus(s, j, w, move);
      } else {
        MoveLeaves(s, k, w, move, j);
      }
    case Finish(_, _, _) =>
    case Start(_, _) =>
    case Cancel(_, _) =>
    case Unopened(_, _) =>
    case Refresh(_) =>
    case Restart =>
  }

  /** While a job runs it is marked as paused exactly when a request to cancel it has been
      written down; its end writes over the mark (see the gate). */
  lemma {:induction false} PausedWhileRunning(s: State, steps: seq<Step>, j: nat)
    requires IsRun(s, steps) && j in s.jobs && j in After(s, steps).jobs && After(s, steps).jobs[j].running
    ensures s.jobs[j].running
    ensures After(s, steps).jobs[j].status == if Pauses(steps, j) then JobPaused else s.jobs[j].status
    decreases |steps|
  {
    if steps != [] {
      StepStatus(s, steps[0], j);
      hide Do, Enabled;
      PausedWhileRunning(Do(s, steps[0]), steps[1..], j);
    }
  }

  // ----- every job ends -----

  function Cost(w: Worker): nat {
    match w
    case Exited => 0
    case Idle => 1
    case Reusing(_, _, _) => 2
    case Storing(_, _, _) => 3
    case Sealing(_, _) => 4
    case Reading(_) => 5
  }

  /** The most moves a job has left. */
  ghost function Effort(job: Job): nat {
    Total(job.workers, Cost) + 5 * |job.queue|
  }

  lemma MoveCosts(s: State, j: nat, w: nat, move: Move)
    requires CanMove(s, j, w, move)
    ensures j in Moved(s, j, w, move).jobs && Effort(Moved(s, j, w, move).jobs[j]) < Effort(s.jobs[j])
  {
    var t := Moved(s, j, w, move);
    OneWorker(s, j, w, move);
    TotalUpdate(s.jobs[j].workers, w, t.jobs[j].workers[w], Cost);
    hide Total, Data;
  }

  function OwnMoves(steps: seq<Step>, j: nat): nat {
    if steps == [] then 0 else (if steps[0].Work? && steps[0].job == j then 1 else 0) + OwnMoves(steps[1..], j)
  }

  lemma StepCosts(s: State, step: Step, j: nat)
    requires Enabled(s, step) && j in s.jobs && s.jobs[j].running
    ensures var t := Do(s, step); j in t.jobs && OwnMoves([step], j) + Effort(t.jobs[j]) <= Effort(s.jobs[j])
  {
    var t := Do(s, step);
    match step
    case Work(k, w, move) =>
      if k == j {
        MoveCosts(s, j, w, move);
      } else {
        MoveLeaves(s, k, w, move, j);
      }
    case Start(_, _) =>
    case Cancel(_, _) =>
    case Unopened(k, _) =>
      if k == j {
        assert Effort(t.jobs[j]) == 0;
      }
    case Finish(_, _, _) =>
    case Refresh(_) =>
    case Restart => assert Effort(t.jobs[j]) == 0;
  }

  /** However jobs, restarts and refreshes interleave, a job makes no more moves than its
      effort allows. */
  lemma {:induction false} MovesAreBounded(s: State, steps: seq<Step>, j: nat)
    requires Inv(s) && IsRun(s, steps) && j in s.jobs
    ensures OwnMoves(steps, j) <= Effort(s.jobs[j])
    decreases |steps|
  {
    hide Inv;
    if steps == [] {
    } else {
      var t := Do(s, steps[0]);
      StepInv(s, steps[0]);
      hide Extends, Effort;
      if s.jobs[j].running {
        StepCosts(s, steps[0], j);
        assert OwnMoves(steps, j) == OwnMoves([steps[0]], j) + OwnMoves(steps[1..], j);
        hide Do, Enabled;
        MovesAreBounded(t, steps[1..], j);
      } else {
        OverForGood(s, steps, j);
      }
    }
  }

  /** A move on which nothing went wrong outside. */
  predicate FaultFree(move: Move) {
    !move.Fail? && !move.Reject?
  }

  /** Some message id is not in use yet. */
  lemma NewMessage(store: map<nat, Blob>) returns (m: nat)
    ensures m !in store
  {
    FreeBelow(store.Keys);
    m :| m !in store.Keys;
  }

  lemma FreeBelow(taken: set<nat>)
    ensures exists m: nat :: m !in taken
  {
    var low := UpTo(|taken| + 1);
    if low <= taken {
      SubsetSize(low, taken);
    } else {
      var m :| m in low && m !in taken;
    }
  }

  lemma HeldIsRow(s: State, j: nat, w: nat)
    requires Inv(s) && At(s, j, w) && Holds(Pc(s, j, w))
    ensures Pc(s, j, w).row in s.rows
  {
    assert WorkersSound(s, s.jobs[j].workers);
    assert WorkerSound(s, Pc(s, j, w));
  }

  /** The move is one of worker w that nothing outside spoils; a read is of the whole part. */
  ghost predicate GoesOn(s: State, j: nat, w: nat, move: Move)
    requires At(s, j, w)
  {
    && CanMove(s, j, w, move) && FaultFree(move)
    && (move.LookUp? ==> move.n == s.rows[Pc(s, j, w).row].size)
  }

  lemma IdleGoesOn(s: State, j: nat, w: nat)
    requires At(s, j, w) && Pc(s, j, w).Idle?
    ensures GoesOn(s, j, w, if s.jobs[j].queue == [] then Leave else Take)
  {
  }

  lemma ReadingGoesOn(s: State, j: nat, w: nat, r: nat)
    requires At(s, j, w) && Pc(s, j, w) == Reading(r) && r in s.rows
    ensures GoesOn(s, j, w, LookUp(s.rows[r].size, None))
  {
    hide Data, HasHash;
  }

  lemma SealingGoesOn(s: State, j: nat, w: nat, m: nat)
    requires At(s, j, w) && Pc(s, j, w).Sealing? && Pc(s, j, w).row in s.rows && m !in s.store
    ensures GoesOn(s, j, w, Send(m))
  {
  }

  lemma HomeGoesOn(s: State, j: nat, w: nat)
    requires At(s, j, w) && (Pc(s, j, w).Reusing? || Pc(s, j, w).Storing?) && Pc(s, j, w).row in s.rows
    ensures GoesOn(s, j, w, if Pc(s, j, w).Reusing? then Reuse else Record)
  {
  }

  /** What a worker that is not gone can do next when nothing goes wrong: take a part or leave,
      read the whole of the part it holds, and bring it home. */
  lemma NextMove(s: State, j: nat, w: nat) returns (move: Move)
    requires Inv(s) && At(s, j, w) && !Pc(s, j, w).Exited?
    ensures GoesOn(s, j, w, move)
  {
    var pc := Pc(s, j, w);
    if pc.Idle? {
      hide *;
      IdleGoesOn(s, j, w);
      move := if s.jobs[j].queue == [] then Leave else Take;
    } else {
      assert Holds(pc);
      hide *;
      HeldIsRow(s, j, w);
      if pc.Reading? {
        ReadingGoesOn(s, j, w, pc.row);
        move := LookUp(s.rows[pc.row].size, None);
      } else if pc.Sealing? {
        var m := NewMessage(s.store);
        SealingGoesOn(s, j, w, m);
        move := Send(m);
      } else {
        HomeGoesOn(s, j, w);
        move := if pc.Reusing? then Reuse else Record;
      }
    }
  }

  /** A running job can always go on without a fault: a worker has a move on which nothing
      goes wrong, or all are gone and the job ends. */
  lemma NeverStuck(s: State, j: nat)
    requires Inv(s) && j in s.jobs && s.jobs[j].running
    ensures Enabled(s, Finish(j, true, true)) || exists w, move :: At(s, j, w) && GoesOn(s, j, w, move)
  {
    if w :| 0 <= w < |s.jobs[j].workers| && !s.jobs[j].workers[w].Exited? {
      hide Inv, GoesOn;
      var move := NextMove(s, j, w);
      assert At(s, j, w) && GoesOn(s, j, w, move);
    }
  }
}
