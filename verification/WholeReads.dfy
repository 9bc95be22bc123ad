/** Reads that an error cuts short. A part read in full keeps its sum and its size together;
    for a job that ends completed the stored rows tell exactly which reads were whole. The
    scope is a set of part rows: nothing is asked of the reads of other parts. */
module WholeReads {
  import opened Upload
  import opened UploadRuns
  import UploadJobs

  /** No read of a part in scope was cut short by an error after its first byte. */
  ghost predicate ReadsWhole(s: State, step: Step, scope: set<nat>)
    requires Enabled(s, step)
  {
    step.Work? && step.move.LookUp? && Pc(s, step.job, step.w).row in scope ==>
      step.move.n == s.rows[Pc(s, step.job, step.w).row].size
  }

  ghost predicate WholeRun(s: State, steps: seq<Step>, scope: set<nat>)
    requires IsRun(s, steps)
    decreases |steps|
  {
    steps == [] || (ReadsWhole(s, steps[0], scope) && WholeRun(Do(s, steps[0]), steps[1..], scope))
  }

  predicate WholeRow(r: Row) {
    r.status == Completed ==> r.sha.Sha256? && |r.sha.of| == r.size
  }

  ghost predicate WholeWorker(s: State, w: Worker, scope: set<nat>) {
    Holds(w) && !w.Reading? && w.row in scope ==> w.row in s.rows && w.n == s.rows[w.row].size
  }

  ghost predicate WholeWorkers(s: State, ws: seq<Worker>, scope: set<nat>) {
    forall w :: 0 <= w < |ws| ==> WholeWorker(s, ws[w], scope)
  }

  ghost predicate WholeRows(s: State, scope: set<nat>) {
    forall r :: r in s.rows && r in scope ==> WholeRow(s.rows[r])
  }

  ghost predicate WholeJobs(s: State, scope: set<nat>) {
    forall j :: j in s.jobs ==> WholeWorkers(s, s.jobs[j].workers, scope)
  }

  ghost predicate Whole(s: State, scope: set<nat>) {
    WholeRows(s, scope) && WholeJobs(s, scope)
  }

  /** Rows that are still to come are whole. */
  lemma NewIsWhole(s: State, scope: set<nat>)
    requires Sound(s) && scope !! s.rows.Keys
    ensures Whole(s, scope)
  {
    hide RowSound;
    forall j | j in s.jobs ensures WholeWorkers(s, s.jobs[j].workers, scope) {
      assert WorkersSound(s, s.jobs[j].workers);
    }
  }

  lemma WholeStays(s: State, t: State, ws: seq<Worker>, scope: set<nat>)
    requires Extends(s, t) && WholeWorkers(s, ws, scope)
    ensures WholeWorkers(t, ws, scope)
  {
  }

  lemma WholeData(s: State, r: Row)
    requires RowSound(s, r)
    ensures |Data(s, r, r.size)| == r.size
  {
  }

  lemma MovedRowWhole(s: State, j: nat, w: nat, move: Move, k: nat, scope: set<nat>)
    requires CanMove(s, j, w, move) && k in s.rows && k in scope && RowSound(s, s.rows[k]) && WholeRow(s.rows[k])
    requires WholeWorker(s, Pc(s, j, w), scope)
    ensures var t := Moved(s, j, w, move); k in t.rows && WholeRow(t.rows[k])
  {
    WholeData(s, s.rows[k]);
    hide RowSound, Data;
  }

  lemma MovedWorkerWhole(s: State, j: nat, w: nat, move: Move, scope: set<nat>)
    requires CanMove(s, j, w, move) && ReadsWhole(s, Work(j, w, move), scope)
    requires WholeWorker(s, Pc(s, j, w), scope)
    ensures var t := Moved(s, j, w, move);
            j in t.jobs && w < |t.jobs[j].workers| && WholeWorker(t, t.jobs[j].workers[w], scope)
  {
    hide Data;
  }

  lemma MoveKeepsWholeWorkers(s: State, j: nat, w: nat, move: Move, k: nat, scope: set<nat>)
    requires CanMove(s, j, w, move) && JobOk(s, j) && k in s.jobs && ReadsWhole(s, Work(j, w, move), scope)
    requires WholeWorkers(s, s.jobs[j].workers, scope) && WholeWorkers(s, s.jobs[k].workers, scope)
    ensures var t := Moved(s, j, w, move); k in t.jobs && WholeWorkers(t, t.jobs[k].workers, scope)
  {
    var t := Moved(s, j, w, move);
    MoveWrites(s, j, w, move);
    OneWorker(s, j, w, move);
    MovedWorkerWhole(s, j, w, move, scope);
    WholeStays(s, t, s.jobs[k].workers, scope);
    hide CanMove, Moved, JobOk, Extends, WholeWorker, ReadsWhole;
  }

  lemma MoveKeepsWholeRows(s: State, j: nat, w: nat, move: Move, scope: set<nat>)
    requires CanMove(s, j, w, move) && RowsSound(s) && JobOk(s, j)
    requires WholeWorkers(s, s.jobs[j].workers, scope) && WholeRows(s, scope)
    ensures WholeRows(Moved(s, j, w, move), scope)
  {
    var t := Moved(s, j, w, move);
    MoveWrites(s, j, w, move);
    forall k | k in t.rows && k in scope ensures WholeRow(t.rows[k]) {
      hide CanMove, Moved, WholeRow, RowSound, JobOk, Extends, WholeWorker;
      MovedRowWhole(s, j, w, move, k, scope);
    }
  }

  lemma MoveKeepsWholeJobs(s: State, j: nat, w: nat, move: Move, scope: set<nat>)
    requires CanMove(s, j, w, move) && JobOk(s, j) && WholeJobs(s, scope) && ReadsWhole(s, Work(j, w, move), scope)
    ensures WholeJobs(Moved(s, j, w, move), scope)
  {
    var t := Moved(s, j, w, move);
    MoveWrites(s, j, w, move);
    forall k | k in t.jobs ensures WholeWorkers(t, t.jobs[k].workers, scope) {
      hide Moved, JobOk, Extends, WholeWorkers;
      MoveKeepsWholeWorkers(s, j, w, move, k, scope);
    }
  }

  lemma StepKeepsWhole(s: State, step: Step, scope: set<nat>)
    requires Enabled(s, step) && Inv(s) && Whole(s, scope) && ReadsWhole(s, step, scope)
    ensures Whole(Do(s, step), scope)
  {
    if step.Work? {
      assert JobOk(s, step.job) && WholeWorkers(s, s.jobs[step.job].workers, scope);
      hide WholeRows, WholeJobs, CanMove, Moved, RowsSound;
      MoveKeepsWholeRows(s, step.job, step.w, step.move, scope);
      MoveKeepsWholeJobs(s, step.job, step.w, step.move, scope);
    } else {
      StepInv(s, step);
      hide WholeRows, WholeJobs, Do, Enabled, Extends, Inv;
      OthersKeepRows(s, step, scope);
      OthersKeepJobs(s, step, scope);
    }
  }

  lemma OthersKeepJobs(s: State, step: Step, scope: set<nat>)
    requires Enabled(s, step) && !step.Work? && Extends(s, Do(s, step)) && WholeJobs(s, scope)
    ensures WholeJobs(Do(s, step), scope)
  {
    var t := Do(s, step);
    hide Do, Enabled, WholeWorkers, Extends;
    forall j | j in t.jobs ensures WholeWorkers(t, t.jobs[j].workers, scope) {
      OthersKeepWorkers(s, step, j);
      if j in s.jobs {
        WholeStays(s, t, s.jobs[j].workers, scope);
        IdleIsWhole(t, [], scope);
      } else {
        IdleIsWhole(t, t.jobs[j].workers, scope);
      }
    }
  }

  lemma IdleIsWhole(s: State, ws: seq<Worker>, scope: set<nat>)
    requires forall w :: 0 <= w < |ws| ==> ws[w] == Idle
    ensures WholeWorkers(s, ws, scope)
  {
  }

  lemma OthersKeepRows(s: State, step: Step, scope: set<nat>)
    requires Enabled(s, step) && !step.Work? && WholeRows(s, scope)
    ensures WholeRows(Do(s, step), scope)
  {
    hide Moved, CanMove;
  }

  /** Only Start brings workers, idle ones; the others keep a job's workers or drop them. */
  lemma OthersKeepWorkers(s: State, step: Step, j: nat)
    requires Enabled(s, step) && !step.Work? && j in Do(s, step).jobs
    ensures var ws := Do(s, step).jobs[j].workers;
            if j in s.jobs then ws == s.jobs[j].workers || ws == []
            else forall w :: 0 <= w < |ws| ==> ws[w] == Idle
  {
    hide Moved, CanMove;
  }

  lemma {:induction false} RunKeepsWhole(s: State, steps: seq<Step>, scope: set<nat>)
    requires Inv(s) && Whole(s, scope) && IsRun(s, steps) && WholeRun(s, steps, scope)
    ensures Whole(After(s, steps), scope)
    decreases |steps|
  {
    hide Inv, Enabled, Do, Whole, ReadsWhole;
    if steps == [] {
    } else {
      StepInv(s, steps[0]);
      StepKeepsWhole(s, steps[0], scope);
      RunKeepsWhole(Do(s, steps[0]), steps[1..], scope);
    }
  }

  // ----- a read that was cut short shows -----

  /** A worker goes on with fewer bytes than its part has. */
  ghost predicate InTransit(s: State, j: nat, k: nat)
    requires j in s.jobs
  {
    exists w :: 0 <= w < |s.jobs[j].workers| && Carries(s, s.jobs[j].workers[w], k)
  }

  ghost predicate Carries(s: State, w: Worker, k: nat) {
    Holds(w) && !w.Reading? && w.row == k && k in s.rows && w.n < s.rows[k].size
  }

  ghost predicate CutRow(s: State, k: nat) {
    k in s.rows && s.rows[k].status == Completed && s.rows[k].sha.Sha256? && |s.rows[k].sha.of| < s.rows[k].size
  }

  /** The job will not end completed. */
  ghost predicate Lost(job: Job) {
    job.errors > 0 || (!job.running && job.status != JobCompleted)
  }

  /** What a read of part k that was cut short leads to. */
  ghost predicate Hurt(s: State, j: nat, k: nat) {
    j in s.jobs && (CutRow(s, k) || Lost(s.jobs[j]) || (s.jobs[j].running && InTransit(s, j, k)))
  }

  lemma CutStays(s: State, t: State, k: nat)
    requires Extends(s, t) && CutRow(s, k)
    ensures CutRow(t, k)
  {
  }

  lemma CarriesOn(s: State, t: State, w: Worker, k: nat)
    requires Extends(s, t) && Carries(s, w, k)
    ensures Carries(t, w, k)
  {
  }

  /** A lost job stays lost. */
  lemma LostStays(s: State, step: Step, j: nat)
    requires Inv(s) && Enabled(s, step) && j in s.jobs && Lost(s.jobs[j])
    ensures j in Do(s, step).jobs && Lost(Do(s, step).jobs[j])
  {
    hide Inv, CanMove, Moved;
    if !s.jobs[j].running {
      UploadJobs.StoppedStays(s, step, j);
    } else if step.Work? {
      if step.job == j {
        ErrorsStay(s, j, step.w, step.move);
      } else {
        UploadJobs.MoveLeaves(s, step.job, step.w, step.move, j);
      }
    }
  }

  lemma ErrorsStay(s: State, j: nat, w: nat, move: Move)
    requires CanMove(s, j, w, move)
    ensures var t := Moved(s, j, w, move); j in t.jobs && t.jobs[j].errors >= s.jobs[j].errors
  {
  }

  /** A worker with too few bytes sends them, stores them or gives up. */
  lemma CarrierMoves(s: State, j: nat, w: nat, move: Move, k: nat)
    requires CanMove(s, j, w, move) && Carries(s, Pc(s, j, w), k)
    ensures var t := Moved(s, j, w, move);
            j in t.jobs && w < |t.jobs[j].workers|
            && (CutRow(t, k) || t.jobs[j].errors > 0 || (t.jobs[j].running && Carries(t, t.jobs[j].workers[w], k)))
  {
    hide Plain;
  }

  lemma MoveKeepsHurt(s: State, j: nat, w: nat, move: Move, k: nat)
    requires CanMove(s, j, w, move) && JobOk(s, j) && s.jobs[j].running && InTransit(s, j, k)
    ensures Hurt(Moved(s, j, w, move), j, k)
  {
    var t := Moved(s, j, w, move);
    var v :| 0 <= v < |s.jobs[j].workers| && Carries(s, s.jobs[j].workers[v], k);
    MoveWrites(s, j, w, move);
    OneWorker(s, j, w, move);
    StillRunning(s, j, w, move);
    if v == w {
      CarrierMoves(s, j, w, move, k);
    } else {
      CarriesOn(s, t, s.jobs[j].workers[v], k);
    }
    hide CanMove, Moved, JobOk, Extends, Carries, CutRow;
    if v != w {
      assert Carries(t, t.jobs[j].workers[v], k);
    }
  }

  lemma StillRunning(s: State, j: nat, w: nat, move: Move)
    requires CanMove(s, j, w, move)
    ensures var t := Moved(s, j, w, move); j in t.jobs && t.jobs[j].running == s.jobs[j].running
  {
  }

  lemma TransitStays(s: State, t: State, j: nat, k: nat)
    requires Extends(s, t) && j in s.jobs && j in t.jobs && t.jobs[j].workers == s.jobs[j].workers && InTransit(s, j, k)
    ensures InTransit(t, j, k)
  {
    var v :| 0 <= v < |s.jobs[j].workers| && Carries(s, s.jobs[j].workers[v], k);
    CarriesOn(s, t, s.jobs[j].workers[v], k);
  }

  /** What the steps other than moves do to a running job: nothing to its workers, or it is
      given up or stopped by a restart. */
  lemma OthersKeepJob(s: State, step: Step, j: nat)
    requires JobsOk(s) && Enabled(s, step) && !step.Work? && j in s.jobs && s.jobs[j].running
    requires !(step.Finish? && step.job == j)
    ensures var t := Do(s, step);
            j in t.jobs && ((t.jobs[j].running && t.jobs[j].workers == s.jobs[j].workers) || Lost(t.jobs[j]))
  {
    assert JobOk(s, j);
    hide Moved, CanMove;
  }

  lemma NoEndInTransit(s: State, step: Step, j: nat, k: nat)
    requires Enabled(s, step) && j in s.jobs && InTransit(s, j, k)
    ensures !(step.Finish? && step.job == j)
  {
  }

  lemma StepKeepsHurt(s: State, step: Step, j: nat, k: nat)
    requires Inv(s) && Enabled(s, step) && Hurt(s, j, k)
    ensures Hurt(Do(s, step), j, k)
  {
    var t := Do(s, step);
    StepInv(s, step);
    hide Extends, CutRow, InTransit, Lost, Do, Enabled;
    if CutRow(s, k) {
      CutStays(s, t, k);
      JobsStay(s, step, j);
    } else if Lost(s.jobs[j]) {
      LostStays(s, step, j);
    } else {
      TransitHurts(s, step, j, k);
    }
  }

  lemma JobsStay(s: State, step: Step, j: nat)
    requires Enabled(s, step) && j in s.jobs
    ensures j in Do(s, step).jobs
  {
    hide CanMove, Moved;
    if step.Work? {
      JobsStayOnMove(s, step.job, step.w, step.move, j);
    }
  }

  lemma JobsStayOnMove(s: State, i: nat, w: nat, move: Move, j: nat)
    requires CanMove(s, i, w, move) && j in s.jobs
    ensures j in Moved(s, i, w, move).jobs
  {
  }

  lemma TransitHurts(s: State, step: Step, j: nat, k: nat)
    requires Inv(s) && Enabled(s, step) && Extends(s, Do(s, step)) && j in s.jobs && s.jobs[j].running &&
             InTransit(s, j, k)
    ensures Hurt(Do(s, step), j, k)
  {
    var t := Do(s, step);
    assert JobOk(s, j);
    NoEndInTransit(s, step, j, k);
    hide InTransit, Lost, CutRow, Extends, CanMove, Moved, Sound, JobOk;
    if step.Work? && step.job == j {
      MoveKeepsHurt(s, j, step.w, step.move, k);
    } else if step.Work? {
      UploadJobs.MoveLeaves(s, step.job, step.w, step.move, j);
      TransitStays(s, t, j, k);
    } else {
      OthersKeepJob(s, step, j);
      if t.jobs[j].running && t.jobs[j].workers == s.jobs[j].workers {
        TransitStays(s, t, j, k);
      }
    }
  }

  /** The read itself. */
  lemma CutReadHurts(s: State, step: Step, j: nat, scope: set<nat>) returns (k: nat)
    requires Inv(s) && Enabled(s, step) && !ReadsWhole(s, step, scope)
    requires j in s.jobs && scope <= s.jobs[j].rows
    ensures k in scope && Hurt(Do(s, step), j, k)
  {
    k := Pc(s, step.job, step.w).row;
    var t := Do(s, step);
    HeldIsOwn(s, step.job, step.w, j);
    CutReadCarries(s, step.job, step.w, step.move);
    hide CanMove, Moved, Inv, Carries;
    assert Carries(t, t.jobs[j].workers[step.w], k);
  }

  lemma HeldIsOwn(s: State, i: nat, w: nat, j: nat)
    requires JobsOk(s) && At(s, i, w) && Holds(Pc(s, i, w)) && j in s.jobs && Pc(s, i, w).row in s.jobs[j].rows
    ensures i == j
  {
    assert JobOk(s, i) && JobOk(s, j);
    assert Waiting(s, i, Pc(s, i, w).row);
  }

  lemma CutReadCarries(s: State, j: nat, w: nat, move: Move)
    requires CanMove(s, j, w, move) && move.LookUp? && move.n != s.rows[Pc(s, j, w).row].size
    ensures var t := Moved(s, j, w, move);
            j in t.jobs && t.jobs[j].running && w < |t.jobs[j].workers| &&
              Carries(t, t.jobs[j].workers[w], Pc(s, j, w).row)
  {
    hide Data;
  }

  lemma {:induction false} RunKeepsHurt(s: State, steps: seq<Step>, j: nat, k: nat)
    requires Inv(s) && IsRun(s, steps) && Hurt(s, j, k)
    ensures Hurt(After(s, steps), j, k)
    decreases |steps|
  {
    hide Inv, Enabled, Do, Hurt;
    if steps != [] {
      StepInv(s, steps[0]);
      StepKeepsHurt(s, steps[0], j, k);
      RunKeepsHurt(Do(s, steps[0]), steps[1..], j, k);
    }
  }

  lemma {:induction false} CutRunHurts(s: State, steps: seq<Step>, j: nat, scope: set<nat>) returns (k: nat)
    requires Inv(s) && IsRun(s, steps) && !WholeRun(s, steps, scope) && j in s.jobs && scope <= s.jobs[j].rows
    ensures k in scope && Hurt(After(s, steps), j, k)
    decreases |steps|
  {
    hide Inv, Enabled, Do, Hurt, ReadsWhole;
    StepInv(s, steps[0]);
    if !ReadsWhole(s, steps[0], scope) {
      k := CutReadHurts(s, steps[0], j, scope);
      RunKeepsHurt(Do(s, steps[0]), steps[1..], j, k);
    } else {
      JobRowsStay(s, steps[0], j);
      k := CutRunHurts(Do(s, steps[0]), steps[1..], j, scope);
    }
  }

  lemma JobRowsStay(s: State, step: Step, j: nat)
    requires Inv(s) && Enabled(s, step) && j in s.jobs
    ensures j in Do(s, step).jobs && Do(s, step).jobs[j].rows == s.jobs[j].rows
  {
    hide Moved, CanMove, Inv;
    if step.Work? {
      if step.job == j {
        MoveKeepsJobRows(s, j, step.w, step.move);
      } else {
        UploadJobs.MoveLeaves(s, step.job, step.w, step.move, j);
      }
    }
  }

  lemma MoveKeepsJobRows(s: State, j: nat, w: nat, move: Move)
    requires CanMove(s, j, w, move)
    ensures j in Moved(s, j, w, move).jobs && Moved(s, j, w, move).jobs[j].rows == s.jobs[j].rows
  {
  }

  lemma HurtIsCut(s: State, j: nat, k: nat)
    requires JobsOk(s) && Hurt(s, j, k) && s.jobs[j].status == JobCompleted
    ensures CutRow(s, k)
  {
    assert JobOk(s, j);
  }

  /** For any of a completed job's parts: their reads were all whole exactly when each is
      stored with a sum of as many bytes as the part has. */
  lemma StoredTellsReads(s: State, steps: seq<Step>, j: nat, scope: set<nat>)
    requires Inv(s) && Whole(s, scope) && IsRun(s, steps) && j in s.jobs && scope <= s.jobs[j].rows
    requires var t := After(s, steps); j in t.jobs && t.jobs[j].status == JobCompleted
    ensures WholeRun(s, steps, scope) <==> WholeRows(After(s, steps), scope)
  {
    hide Inv, IsRun, After, WholeRun, Whole, Hurt, CutRow, WholeRows;
    RunKeeps(s, steps);
    if WholeRun(s, steps, scope) {
      RunKeepsWhole(s, steps, scope);
      WholeHasRows(After(s, steps), scope);
    } else {
      var k := CutRunHurts(s, steps, j, scope);
      InvJobs(After(s, steps));
      HurtIsCut(After(s, steps), j, k);
      CutIsNotWhole(After(s, steps), k, scope);
    }
  }

  lemma WholeHasRows(s: State, scope: set<nat>)
    requires Whole(s, scope)
    ensures WholeRows(s, scope)
  {
  }

  lemma InvJobs(s: State)
    requires Inv(s)
    ensures JobsOk(s)
  {
  }

  lemma CutIsNotWhole(s: State, k: nat, scope: set<nat>)
    requires CutRow(s, k) && k in scope
    ensures !WholeRows(s, scope)
  {
  }
}
