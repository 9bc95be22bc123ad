/** What every run of the upload engine keeps: completed rows stay recoverable, every part
    of a running job is queued, held by one worker, stored or given up, and a job is marked
    completed only with all of its parts stored. */
module UploadRuns {
  import opened Wrappers
  import opened Collections
  import opened Upload

  function Held(w: Worker): nat {
    if Holds(w) then 1 else 0
  }

  ghost function Total(ws: seq<Worker>, f: Worker -> nat): nat {
    if ws == [] then 0 else f(ws[0]) + Total(ws[1..], f)
  }

  lemma {:induction false} TotalUpdate(ws: seq<Worker>, w: nat, pc: Worker, f: Worker -> nat)
    requires w < |ws|
    ensures Total(ws[w := pc], f) + f(ws[w]) == Total(ws, f) + f(pc)
  {
    if w == 0 {
      assert ws[0 := pc][1..] == ws[1..];
    } else {
      assert ws[w := pc][1..] == ws[1..][w - 1 := pc];
      TotalUpdate(ws[1..], w - 1, pc, f);
    }
  }

  lemma {:induction false} TotalOfNone(ws: seq<Worker>, f: Worker -> nat)
    requires forall w :: 0 <= w < |ws| ==> f(ws[w]) == 0
    ensures Total(ws, f) == 0
  {
    if ws != [] {
      TotalOfNone(ws[1..], f);
    }
  }

  ghost function Done(s: State, j: nat): set<nat>
    requires j in s.jobs
  {
    WithStatus(s, s.jobs[j].rows, Completed)
  }

  ghost predicate Waiting(s: State, j: nat, r: nat)
    requires j in s.jobs
  {
    r in s.jobs[j].rows && r in s.rows && s.rows[r].status == Pending
  }

  /** Queued and held parts are pending rows of the job, each in one place only. */
  ghost predicate InHand(s: State, j: nat)
    requires j in s.jobs
  {
    var job := s.jobs[j];
    && (forall r :: r in job.queue ==> Waiting(s, j, r))
    && (forall a, b :: 0 <= a < b < |job.queue| ==> job.queue[a] != job.queue[b])
    && (forall w :: 0 <= w < |job.workers| && Holds(job.workers[w]) ==>
          Waiting(s, j, job.workers[w].row) && job.workers[w].row !in job.queue)
    && (forall v, w :: 0 <= v < w < |job.workers| && Holds(job.workers[v]) && Holds(job.workers[w]) ==>
          job.workers[v].row != job.workers[w].row)
  }

  /** Every part is counted once: given up, queued, held or stored. */
  ghost predicate Counted(s: State, j: nat)
    requires j in s.jobs
  {
    var job := s.jobs[j];
    job.errors + |job.queue| + Total(job.workers, Held) + |Done(s, j)| == job.total
  }

  ghost predicate Running(s: State, j: nat)
    requires j in s.jobs
  {
    var job := s.jobs[j];
    && (job.status == Active || job.status == JobPaused) && |job.workers| > 0
    && InHand(s, j) && Counted(s, j)
    && (forall w :: 0 <= w < |job.workers| && job.workers[w].Exited? ==>
          job.queue == [] || job.cancelled || job.errors > 0)
  }

  ghost predicate JobOk(s: State, j: nat)
    requires j in s.jobs
  {
    var job := s.jobs[j];
    && job.total == |job.rows|
    && (forall r :: r in job.rows ==> r in s.rows && s.rows[r].job == j)
    && (job.status == JobCompleted ==> !job.running && job.errors == 0 && Done(s, j) == job.rows)
    && (job.running ==> Running(s, j))
  }

  ghost predicate JobsOk(s: State) {
    forall j :: j in s.jobs ==> JobOk(s, j)
  }

  ghost predicate Inv(s: State) {
    Sound(s) && JobsOk(s)
  }

  // ----- the jobs -----

  /** A job is left alone by a step that keeps its record and its rows' statuses. */
  lemma OtherJobStays(s: State, t: State, j: nat)
    requires j in s.jobs && j in t.jobs && t.jobs[j] == s.jobs[j] && JobOk(s, j)
    requires forall r :: r in s.jobs[j].rows ==>
               r in t.rows && t.rows[r].status == s.rows[r].status && t.rows[r].job == s.rows[r].job
    ensures JobOk(t, j)
  {
    assert Done(t, j) == Done(s, j);
  }

  /** A worker that keeps holding what it held, or nothing. */
  lemma SameHoldKeepsJob(s: State, t: State, j: nat, w: nat, pc: Worker)
    requires At(s, j, w) && JobOk(s, j)
    requires Holds(pc) == Holds(Pc(s, j, w)) && (Holds(pc) ==> pc.row == Pc(s, j, w).row)
    requires pc.Exited? ==> s.jobs[j].queue == [] || s.jobs[j].cancelled
    requires t.rows == s.rows && j in t.jobs && t.jobs[j] == s.jobs[j].(workers := s.jobs[j].workers[w := pc])
    ensures JobOk(t, j)
  {
    assert Done(t, j) == Done(s, j);
    SameHoldInHand(s, t, j, w, pc);
    SameHoldCounted(s, t, j, w, pc);
    hide InHand, Counted, Done;
  }

  lemma SameHoldInHand(s: State, t: State, j: nat, w: nat, pc: Worker)
    requires At(s, j, w) && InHand(s, j)
    requires Holds(pc) == Holds(Pc(s, j, w)) && (Holds(pc) ==> pc.row == Pc(s, j, w).row)
    requires t.rows == s.rows && j in t.jobs && t.jobs[j] == s.jobs[j].(workers := s.jobs[j].workers[w := pc])
    ensures InHand(t, j)
  {
  }

  lemma SameHoldCounted(s: State, t: State, j: nat, w: nat, pc: Worker)
    requires At(s, j, w) && Counted(s, j) && Holds(pc) == Holds(Pc(s, j, w))
    requires t.rows == s.rows && j in t.jobs && t.jobs[j] == s.jobs[j].(workers := s.jobs[j].workers[w := pc])
    ensures Counted(t, j)
  {
    TotalUpdate(s.jobs[j].workers, w, pc, Held);
    assert Done(t, j) == Done(s, j);
    hide Total, WithStatus;
  }

  lemma TakeKeepsJob(s: State, j: nat, w: nat)
    requires CanMove(s, j, w, Take) && JobOk(s, j)
    ensures JobOk(Moved(s, j, w, Take), j)
  {
    var job := s.jobs[j];
    var t := Moved(s, j, w, Take);
    TotalUpdate(job.workers, w, Reading(job.queue[0]), Held);
    assert Done(t, j) == Done(s, j);
    assert job.queue[0] in job.queue;
    assert forall r :: r in job.queue[1..] ==> r in job.queue;
    assert job.queue[0] !in job.queue[1..];
  }

  lemma FailKeepsJob(s: State, j: nat, w: nat, marked: bool, pc: Worker)
    requires At(s, j, w) && Holds(Pc(s, j, w)) && JobOk(s, j) && !Holds(pc)
    ensures JobOk(FailPart(s, j, w, marked, pc), j)
  {
    var t := FailPart(s, j, w, marked, pc);
    TotalUpdate(s.jobs[j].workers, w, pc, Held);
    assert Done(t, j) == Done(s, j);
  }

  lemma CompleteKeepsJob(s: State, j: nat, w: nat, r: nat, n: nat, place: Place, url: Url)
    requires At(s, j, w) && Holds(Pc(s, j, w)) && Pc(s, j, w).row == r && r in s.rows && JobOk(s, j)
    ensures JobOk(CompletePart(s, j, w, r, n, place, url), j)
  {
    var t := CompletePart(s, j, w, r, n, place, url);
    hide Data;
    assert t.rows.Keys == s.rows.Keys && t.rows[r].job == s.rows[r].job && t.rows[r].status == Completed;
    assert forall q :: q in s.rows && q != r ==> t.rows[q] == s.rows[q];
    assert t.jobs == s.jobs[j := s.jobs[j].(workers := s.jobs[j].workers[w := Idle])];
    hide CompletePart, JobOk;
    StoredKeepsJob(s, t, j, w, r);
  }

  /** A worker has stored its part and is idle again. */
  ghost predicate StoredBy(s: State, t: State, j: nat, w: nat, r: nat)
    requires At(s, j, w)
  {
    && Holds(Pc(s, j, w)) && Pc(s, j, w).row == r && r in s.rows && r in t.rows
    && t.rows.Keys == s.rows.Keys && t.rows[r].job == s.rows[r].job && t.rows[r].status == Completed
    && (forall q :: q in s.rows && q != r ==> t.rows[q] == s.rows[q])
    && t.jobs == s.jobs[j := s.jobs[j].(workers := s.jobs[j].workers[w := Idle])]
  }

  lemma StoredInHand(s: State, t: State, j: nat, w: nat, r: nat)
    requires At(s, j, w) && StoredBy(s, t, j, w, r) && InHand(s, j)
    ensures j in t.jobs && InHand(t, j)
  {
  }

  lemma StoredCounted(s: State, t: State, j: nat, w: nat, r: nat)
    requires At(s, j, w) && StoredBy(s, t, j, w, r) && Waiting(s, j, r) && Counted(s, j)
    ensures j in t.jobs && Counted(t, j)
  {
    TotalUpdate(s.jobs[j].workers, w, Idle, Held);
    assert Done(t, j) == Done(s, j) + {r};
    hide WithStatus, Total;
  }

  lemma StoredKeepsJob(s: State, t: State, j: nat, w: nat, r: nat)
    requires At(s, j, w) && StoredBy(s, t, j, w, r) && JobOk(s, j)
    ensures j in t.jobs && JobOk(t, j)
  {
    assert Waiting(s, j, r);
    StoredInHand(s, t, j, w, r);
    StoredCounted(s, t, j, w, r);
    hide InHand, Counted, Waiting, Done;
  }

  lemma MoveKeepsJob(s: State, j: nat, w: nat, move: Move)
    requires CanMove(s, j, w, move) && JobOk(s, j)
    ensures JobOk(Moved(s, j, w, move), j)
  {
    var t := Moved(s, j, w, move);
    match move
    case Take => TakeKeepsJob(s, j, w);
    case Fail(marked) => FailKeepsJob(s, j, w, marked, Idle);
    case Reject(marked) => FailKeepsJob(s, j, w, marked, Exited);
    case Reuse => CompleteKeepsJob(s, j, w, Pc(s, j, w).row, Pc(s, j, w).n, Pc(s, j, w).found.place,
                                   Pc(s, j, w).found.url);
    case Record =>
      CompleteKeepsJob(s, j, w, Pc(s, j, w).row, Pc(s, j, w).n, Message(Pc(s, j, w).message),
                       LinkTo(Pc(s, j, w).message));
    case Leave => SameHoldKeepsJob(s, t, j, w, t.jobs[j].workers[w]);
    case LookUp(_, _) => SameHoldKeepsJob(s, t, j, w, t.jobs[j].workers[w]);
    case Send(_) => SameHoldKeepsJob(s, t, j, w, t.jobs[j].workers[w]);
  }

  /** What a worker may write of the tables: rows of its own job that are still pending. */
  ghost predicate Writes(s: State, t: State, j: nat) {
    && t.rows.Keys == s.rows.Keys && t.files == s.files
    && t.jobs.Keys == s.jobs.Keys && (forall k :: k in s.jobs && k != j ==> t.jobs[k] == s.jobs[k])
    && (forall r :: r in s.rows && t.rows[r] != s.rows[r] ==> s.rows[r].status == Pending && s.rows[r].job == j)
    && Extends(s, t)
  }

  lemma FailWrites(s: State, j: nat, w: nat, marked: bool, pc: Worker)
    requires At(s, j, w) && Holds(Pc(s, j, w)) && JobOk(s, j)
    ensures var t := FailPart(s, j, w, marked, pc);
            Writes(s, t, j) && forall r :: r in s.rows && t.rows[r] != s.rows[r] ==> r == Pc(s, j, w).row
  {
    assert Waiting(s, j, Pc(s, j, w).row);
  }

  lemma CompleteWrites(s: State, j: nat, w: nat, r: nat, n: nat, place: Place, url: Url)
    requires At(s, j, w) && Holds(Pc(s, j, w)) && Pc(s, j, w).row == r && r in s.rows && JobOk(s, j)
    ensures var t := CompletePart(s, j, w, r, n, place, url);
            Writes(s, t, j) && forall q :: q in s.rows && t.rows[q] != s.rows[q] ==> q == r
  {
    assert Waiting(s, j, r);
  }

  lemma OnlyWorkerWrites(s: State, t: State, j: nat)
    requires j in s.jobs && j in t.jobs && t == s.(jobs := t.jobs, store := t.store) && t.jobs == s.jobs[j := t.jobs[j]]
    requires forall m :: m in s.store ==> m in t.store && t.store[m] == s.store[m]
    ensures Writes(s, t, j)
  {
  }

  lemma MoveWrites(s: State, j: nat, w: nat, move: Move)
    requires CanMove(s, j, w, move) && JobOk(s, j)
    ensures var t := Moved(s, j, w, move);
            && Writes(s, t, j)
            && (forall r :: r in s.rows && t.rows[r] != s.rows[r] ==> Holds(Pc(s, j, w)) && r == Pc(s, j, w).row)
  {
    var t := Moved(s, j, w, move);
    var pc := Pc(s, j, w);
    hide FailPart, CompletePart, JobOk, Writes, Extends, Data;
    match move
    case Fail(marked) => FailWrites(s, j, w, marked, Idle);
    case Reject(marked) => FailWrites(s, j, w, marked, Exited);
    case Reuse => CompleteWrites(s, j, w, pc.row, pc.n, pc.found.place, pc.found.url);
    case Record => CompleteWrites(s, j, w, pc.row, pc.n, Message(pc.message), LinkTo(pc.message));
    case Take => OnlyWorkerWrites(s, t, j);
    case Leave => OnlyWorkerWrites(s, t, j);
    case LookUp(_, _) => OnlyWorkerWrites(s, t, j);
    case Send(_) => OnlyWorkerWrites(s, t, j);
  }

  lemma MoveKeepsJobs(s: State, j: nat, w: nat, move: Move)
    requires CanMove(s, j, w, move) && JobsOk(s)
    ensures JobsOk(Moved(s, j, w, move))
  {
    var t := Moved(s, j, w, move);
    MoveKeepsJob(s, j, w, move);
    MoveWrites(s, j, w, move);
    forall k | k in t.jobs ensures JobOk(t, k) {
      if k != j {
        OtherJobStays(s, t, k) by {
          hide Moved, CanMove, Extends;
        }
      }
    }
  }

  // ----- the rows -----

  lemma DataIsPrefix(s: State, r: Row, n: nat)
    ensures Data(s, r, n) <= Plain(s, r)
  {
  }

  /** Dedup: whoever sealed the attachment of the found row sealed this row's, too. */
  lemma InheritsSeal(t: State, found: Row, r: Row)
    requires RowSound(t, found) && found.status == Completed && found.sha.Sha256?
    requires r.sha == found.sha && r.place == found.place && r.url == found.url
    requires r.file in t.files && r.offset + r.size <= |t.files[r.file]| && found.sha.of <= Plain(t, r)
    ensures RowSound(t, r)
  {
    hide Aad, Plain;
    var o :| o in t.rows && SealedBy(t, t.rows[o], found);
    assert SealedBy(t, t.rows[o], r);
  }

  lemma ReuseWrites(s: State, j: nat, w: nat)
    requires CanMove(s, j, w, Reuse) && WorkerSound(s, Pc(s, j, w)) && RowSound(s, s.rows[Pc(s, j, w).row])
    ensures var t := Moved(s, j, w, Reuse); var found := Pc(s, j, w).found; var r := t.rows[Pc(s, j, w).row];
            && RowSound(s, found) && found.status == Completed
            && r.sha == found.sha && r.place == found.place && r.url == found.url
            && r.file in t.files && r.offset + r.size <= |t.files[r.file]| && found.sha.Sha256?
            && found.sha.of <= Plain(t, r)
  {
    var t := Moved(s, j, w, Reuse);
    var pc := Pc(s, j, w);
    DataIsPrefix(s, s.rows[pc.row], pc.n);
    assert Plain(t, t.rows[pc.row]) == Plain(s, s.rows[pc.row]);
    hide Data, SealedBy;
  }

  lemma ReuseSound(s: State, j: nat, w: nat)
    requires CanMove(s, j, w, Reuse) && Sound(s) && JobOk(s, j)
    ensures var t, r := Moved(s, j, w, Reuse), Pc(s, j, w).row; r in t.rows && RowSound(t, t.rows[r])
  {
    var t := Moved(s, j, w, Reuse);
    var pc := Pc(s, j, w);
    MoveWrites(s, j, w, Reuse);
    assert WorkerSound(s, pc) && RowSound(s, s.rows[pc.row]);
    hide RowSound, Plain, Data, Extends, WorkerSound, JobOk, Moved;
    ReuseWrites(s, j, w);
    SoundStays(s, t, pc.found);
    InheritsSeal(t, pc.found, t.rows[pc.row]);
  }

  /** A row that names the data its own attachment is sealed under. */
  ghost predicate OwnSeal(s: State, r: Row) {
    && r.file in s.files && r.offset + r.size <= |s.files[r.file]|
    && r.status == Completed && r.place.Message? && r.place.id in s.store && r.url == LinkTo(r.place.id)
    && r.sha.Sha256? && r.sha.of <= Plain(s, r) && s.store[r.place.id] == Sealed(Aad(r.file, r.index), r.sha.of)
  }

  lemma OwnSealSound(s: State, k: nat)
    requires k in s.rows && OwnSeal(s, s.rows[k])
    ensures RowSound(s, s.rows[k])
  {
    hide Plain, Aad;
    assert SealedBy(s, s.rows[k], s.rows[k]);
  }

  lemma RecordSeals(s: State, j: nat, w: nat)
    requires CanMove(s, j, w, Record) && WorkerSound(s, Pc(s, j, w)) && RowSound(s, s.rows[Pc(s, j, w).row])
    ensures var t, r := Moved(s, j, w, Record), Pc(s, j, w).row; r in t.rows && OwnSeal(t, t.rows[r])
  {
    var t := Moved(s, j, w, Record);
    var pc := Pc(s, j, w);
    DataIsPrefix(s, s.rows[pc.row], pc.n);
    assert Plain(t, t.rows[pc.row]) == Plain(s, s.rows[pc.row]);
    hide Data, SealedBy, Aad;
  }

  lemma RecordSound(s: State, j: nat, w: nat)
    requires CanMove(s, j, w, Record) && Sound(s) && JobOk(s, j)
    ensures var t, r := Moved(s, j, w, Record), Pc(s, j, w).row; r in t.rows && RowSound(t, t.rows[r])
  {
    var pc := Pc(s, j, w);
    assert WorkerSound(s, pc) && RowSound(s, s.rows[pc.row]);
    hide RowSound, WorkerSound, JobOk, OwnSeal, Sound;
    RecordSeals(s, j, w);
    OwnSealSound(Moved(s, j, w, Record), pc.row);
  }

  lemma FailedRowSound(s: State, t: State, a: Row, b: Row)
    requires RowSound(s, a) && a.status == Pending && t.files == s.files && (b == a || b == a.(status := Failed))
    ensures RowSound(t, b)
  {
  }

  /** A row a worker gave up on, marked or not. */
  lemma FailSound(s: State, j: nat, w: nat, marked: bool, pc: Worker)
    requires At(s, j, w) && Holds(Pc(s, j, w)) && Sound(s) && JobOk(s, j)
    ensures var t, r := FailPart(s, j, w, marked, pc), Pc(s, j, w).row; r in t.rows && RowSound(t, t.rows[r])
  {
    var r := Pc(s, j, w).row;
    assert Waiting(s, j, r) && RowSound(s, s.rows[r]);
    hide RowSound, JobOk, Sound;
    FailedRowSound(s, FailPart(s, j, w, marked, pc), s.rows[r], FailPart(s, j, w, marked, pc).rows[r]);
  }

  lemma PendingSound(s: State, t: State, r: nat)
    requires r in s.rows && RowSound(s, s.rows[r]) && t.rows == s.rows && t.files == s.files &&
             s.rows[r].status == Pending
    ensures RowSound(t, t.rows[r])
  {
  }

  lemma MovedRowSound(s: State, j: nat, w: nat, move: Move)
    requires CanMove(s, j, w, move) && Sound(s) && JobOk(s, j) && Holds(Pc(s, j, w))
    ensures Pc(s, j, w).row in s.rows
    ensures var t, r := Moved(s, j, w, move), Pc(s, j, w).row; r in t.rows && RowSound(t, t.rows[r])
  {
    var t := Moved(s, j, w, move);
    var r := Pc(s, j, w).row;
    assert Waiting(s, j, r) && RowSound(s, s.rows[r]);
    hide RowSound, FailPart;
    match move
    case Reuse => ReuseSound(s, j, w);
    case Record => RecordSound(s, j, w);
    case Fail(marked) => FailSound(s, j, w, marked, Idle);
    case Reject(marked) => FailSound(s, j, w, marked, Exited);
    case LookUp(_, _) => PendingSound(s, t, r);
    case Send(_) => PendingSound(s, t, r);
  }

  lemma LookUpSound(s: State, j: nat, w: nat, n: nat, found: Option<nat>)
    requires CanMove(s, j, w, LookUp(n, found)) && Sound(s)
    ensures var t := Moved(s, j, w, LookUp(n, found)); WorkerSound(s, t.jobs[j].workers[w])
  {
    assert WorkerSound(s, Pc(s, j, w));
    if found.Some? {
      assert RowSound(s, s.rows[found.value]);
    }
    hide RowSound, Data;
  }

  lemma SendSound(s: State, j: nat, w: nat, m: nat)
    requires CanMove(s, j, w, Send(m)) && Sound(s)
    ensures var t := Moved(s, j, w, Send(m)); WorkerSound(t, t.jobs[j].workers[w])
  {
    assert WorkerSound(s, Pc(s, j, w));
  }

  lemma MovedWorkerSound(s: State, j: nat, w: nat, move: Move)
    requires CanMove(s, j, w, move) && Sound(s) && JobOk(s, j)
    ensures var t := Moved(s, j, w, move); WorkerSound(t, t.jobs[j].workers[w])
  {
    var t := Moved(s, j, w, move);
    MoveWrites(s, j, w, move);
    OneWorker(s, j, w, move);
    if move.Send? {
      SendSound(s, j, w, move.message);
    } else {
      if move.LookUp? {
        LookUpSound(s, j, w, move.n, move.found);
      }
      TookWaiting(s, j, w, move);
      assert WorkerSound(s, t.jobs[j].workers[w]) by {
        assert WorkerSound(s, Pc(s, j, w));
        hide RowSound, Data, Extends;
      }
      hide Moved, CanMove, JobOk;
      WorkerStays(s, t, t.jobs[j].workers[w]);
    }
  }

  lemma TookWaiting(s: State, j: nat, w: nat, move: Move)
    requires CanMove(s, j, w, move) && JobOk(s, j)
    ensures move.Take? ==> s.jobs[j].queue[0] in s.rows
  {
    if move.Take? {
      assert Waiting(s, j, s.jobs[j].queue[0]);
    }
  }

  lemma OneWorker(s: State, j: nat, w: nat, move: Move)
    requires CanMove(s, j, w, move)
    ensures var t := Moved(s, j, w, move);
            && j in t.jobs && w < |t.jobs[j].workers| == |s.jobs[j].workers|
            && t.jobs[j].workers == s.jobs[j].workers[w := t.jobs[j].workers[w]]
  {
  }

  lemma MoveKeepsWorkers(s: State, j: nat, w: nat, move: Move, k: nat)
    requires CanMove(s, j, w, move) && Sound(s) && JobOk(s, j) && k in s.jobs
    ensures var t := Moved(s, j, w, move); k in t.jobs && WorkersSound(t, t.jobs[k].workers)
  {
    hide *;
    var t := Moved(s, j, w, move);
    MoveWrites(s, j, w, move);
    MovedWorkerSound(s, j, w, move);
    OneWorker(s, j, w, move);
    MoveLeavesJob(s, t, j, k);
    SoundWorkers(s, k);
    WorkersStay(s, t, s.jobs[k].workers);
    if k == j {
      ChangedWorkerSound(t, s.jobs[j].workers, w, t.jobs[j].workers);
    }
  }

  lemma MoveLeavesJob(s: State, t: State, j: nat, k: nat)
    requires Writes(s, t, j) && k in s.jobs
    ensures Extends(s, t) && k in t.jobs && (k != j ==> t.jobs[k] == s.jobs[k])
  {
  }

  lemma SoundWorkers(s: State, k: nat)
    requires Sound(s) && k in s.jobs
    ensures RowsSound(s) && WorkersSound(s, s.jobs[k].workers)
  {
  }

  lemma ChangedWorkerSound(t: State, before: seq<Worker>, w: nat, after: seq<Worker>)
    requires WorkersSound(t, before) && w < |before| == |after| && after == before[w := after[w]] &&
             WorkerSound(t, after[w])
    ensures WorkersSound(t, after)
  {
    hide WorkerSound;
  }

  lemma MoveKeepsSound(s: State, j: nat, w: nat, move: Move)
    requires CanMove(s, j, w, move) && Sound(s) && JobOk(s, j)
    ensures Sound(Moved(s, j, w, move))
  {
    var t := Moved(s, j, w, move);
    hide WorkerSound, RowSound, Extends, Moved, CanMove, JobOk, WorkersSound;
    MoveWrites(s, j, w, move);
    forall k | k in t.jobs ensures WorkersSound(t, t.jobs[k].workers) {
      MoveKeepsWorkers(s, j, w, move, k);
    }
    forall r | r in t.rows && t.rows[r] != s.rows[r] ensures RowSound(t, t.rows[r]) {
      MovedRowSound(s, j, w, move);
    }
    RowsStay(s, t);
  }

  // ----- the other steps -----

  lemma StartWrites(s: State, j: nat, o: Order)
    requires Fresh(s, j, o)
    ensures var t := Started(s, j, o);
            && t.rows.Keys == s.rows.Keys + o.parts.Keys && t.jobs.Keys == s.jobs.Keys + {j}
            && (forall r :: r in s.rows ==> t.rows[r] == s.rows[r])
            && (forall r :: r in o.parts ==> t.rows[r] == o.parts[r])
            && (forall k :: k in s.jobs ==> t.jobs[k] == s.jobs[k] && k != j)
  {
    hide FreshRow, Lists;
  }

  lemma StartExtends(s: State, j: nat, o: Order)
    requires Fresh(s, j, o)
    ensures Extends(s, Started(s, j, o))
  {
    hide FreshRow, Lists;
  }

  lemma StartedRow(s: State, j: nat, o: Order, r: nat)
    requires Fresh(s, j, o) && r in o.parts
    ensures var t := Started(s, j, o); r in t.rows && RowSound(t, t.rows[r])
  {
    hide Lists;
  }

  lemma StartKeepsSound(s: State, j: nat, o: Order)
    requires Fresh(s, j, o) && Sound(s)
    ensures Sound(Started(s, j, o)) && Extends(s, Started(s, j, o))
  {
    var t := Started(s, j, o);
    StartWrites(s, j, o);
    StartExtends(s, j, o);
    hide RowSound, Extends, Fresh;
    forall r | r in o.parts ensures RowSound(t, t.rows[r]) {
      StartedRow(s, j, o, r);
    }
    RowsStay(s, t);
    forall k | k in s.jobs ensures WorkersSound(t, t.jobs[k].workers) {
      WorkersStay(s, t, s.jobs[k].workers);
    }
  }

  lemma StartKeepsJobs(s: State, j: nat, o: Order)
    requires Fresh(s, j, o) && JobsOk(s)
    ensures JobsOk(Started(s, j, o))
  {
    var t := Started(s, j, o);
    StartWrites(s, j, o);
    StartedJob(s, j, o);
    hide Fresh, Running;
    forall k | k in s.jobs ensures JobOk(t, k) {
      OtherJobStays(s, t, k);
    }
  }

  lemma NewJobOk(t: State, j: nat, o: Order)
    requires j in t.jobs && t.jobs[j] == NewJob(o) && Lists(o.queue, o.parts.Keys) && o.workers > 0
    requires forall r :: r in o.parts ==> r in t.rows && t.rows[r].job == j && t.rows[r].status == Pending
    ensures JobOk(t, j)
  {
    QueuedOnce(o.queue, o.parts.Keys);
    TotalOfNone(t.jobs[j].workers, Held);
    assert Done(t, j) == {};
    assert forall r :: r in o.queue ==> r in o.parts;
    hide Total, Done;
  }

  lemma StartedJob(s: State, j: nat, o: Order)
    requires Fresh(s, j, o)
    ensures JobOk(Started(s, j, o), j)
  {
    StartWrites(s, j, o);
    hide JobOk, Lists;
    NewJobOk(Started(s, j, o), j, o);
  }

  /** A list as long as the set it lists has no duplicates. */
  lemma {:induction false} QueuedOnce(queue: seq<nat>, rows: set<nat>)
    requires Lists(queue, rows)
    ensures forall a, b :: 0 <= a < b < |queue| ==> queue[a] != queue[b]
  {
    if a, b :| 0 <= a < b < |queue| && queue[a] == queue[b] {
      var rest := queue[..b] + queue[b + 1..];
      forall r | r in rows ensures r in rest {
        var i :| 0 <= i < |queue| && queue[i] == r;
        var k := if i == b then a else i;
        assert rest[if k < b then k else k - 1] == r;
      }
      NoMoreThan(rest, rows);
    }
  }

  lemma {:induction false} NoMoreThan(list: seq<nat>, rows: set<nat>)
    requires forall r :: r in rows ==> r in list
    ensures |rows| <= |list|
  {
    if list == [] {
      assert rows == {};
    } else {
      var last := list[|list| - 1];
      NoMoreThan(list[..|list| - 1], rows - {last});
    }
  }

  /** A step that kept or stopped every worker. */
  lemma SoundFrom(s: State, t: State)
    requires Sound(s) && Extends(s, t) && RowsSound(t)
    requires forall j :: j in t.jobs ==>
               j in s.jobs && (t.jobs[j].workers == s.jobs[j].workers || t.jobs[j].workers == [])
    ensures Sound(t)
  {
    hide RowsSound, Extends;
    forall j | j in t.jobs ensures WorkersSound(t, t.jobs[j].workers) {
      if t.jobs[j].workers == s.jobs[j].workers {
        WorkersStay(s, t, s.jobs[j].workers);
      }
    }
  }

  lemma TablesStay(s: State, t: State)
    requires Sound(s) && t == s.(jobs := t.jobs)
    requires forall j :: j in t.jobs ==>
               j in s.jobs && (t.jobs[j].workers == s.jobs[j].workers || t.jobs[j].workers == [])
    ensures Sound(t) && Extends(s, t)
  {
    RowsStay(s, t);
    SoundFrom(s, t);
  }

  lemma CancelKeeps(s: State, step: Step)
    requires step.Cancel? && Enabled(s, step) && JobsOk(s)
    ensures JobsOk(Do(s, step))
  {
    var t := Do(s, step);
    assert Done(t, step.job) == Done(s, step.job);
    forall j | j in t.jobs ensures JobOk(t, j) {
      if j != step.job {
        OtherJobStays(s, t, j);
      }
    }
  }

  lemma UnopenedKeeps(s: State, step: Step)
    requires step.Unopened? && Enabled(s, step) && JobsOk(s)
    ensures JobsOk(Do(s, step))
  {
    var t := Do(s, step);
    assert JobOk(s, step.job) && Done(t, step.job) == Done(s, step.job);
    forall j | j in t.jobs ensures JobOk(t, j) {
      if j != step.job {
        OtherJobStays(s, t, j);
      }
    }
  }

  lemma FinishKeeps(s: State, step: Step)
    requires step.Finish? && Enabled(s, step) && JobsOk(s)
    ensures JobsOk(Do(s, step))
  {
    var t := Do(s, step);
    FinishGate(s, step);
    forall j | j in t.jobs ensures JobOk(t, j) {
      if j != step.job {
        OtherJobStays(s, t, j);
      }
    }
  }

  lemma FinishGate(s: State, step: Step)
    requires step.Finish? && Enabled(s, step) && JobOk(s, step.job)
    ensures JobOk(Do(s, step), step.job)
  {
    var t := Do(s, step);
    var job := s.jobs[step.job];
    assert Done(t, step.job) == Done(s, step.job);
    if t.jobs[step.job].status == JobCompleted {
      TotalOfNone(job.workers, Held);
      AllOf(Done(s, step.job), job.rows);
    }
  }

  lemma AllOf(some: set<nat>, all: set<nat>)
    requires some <= all && |some| >= |all|
    ensures some == all
  {
    SubsetSize(some, all);
  }

  lemma RestartKeeps(s: State)
    requires JobsOk(s)
    ensures JobsOk(Do(s, Restart))
  {
    var t := Do(s, Restart);
    forall j | j in t.jobs ensures JobOk(t, j) {
      assert Done(t, j) == Done(s, j);
    }
  }

  lemma RefreshedRow(s: State, step: Step)
    requires step.Refresh? && Enabled(s, step) && RowSound(s, s.rows[step.row])
    ensures Extends(s, Do(s, step)) && RowSound(Do(s, step), Do(s, step).rows[step.row])
  {
    var t := Do(s, step);
    SoundStays(s, t, s.rows[step.row]);
    InheritsSeal(t, s.rows[step.row], t.rows[step.row]);
  }

  lemma RefreshKeepsJobs(s: State, step: Step)
    requires step.Refresh? && Enabled(s, step) && JobsOk(s)
    ensures JobsOk(Do(s, step))
  {
    var t := Do(s, step);
    forall j | j in t.jobs ensures JobOk(t, j) {
      OtherJobStays(s, t, j);
    }
  }

  lemma RefreshWrites(s: State, step: Step)
    requires step.Refresh? && Enabled(s, step)
    ensures var t := Do(s, step);
            && step.row in s.rows && t.jobs == s.jobs && t.rows.Keys == s.rows.Keys
            && forall r :: r in t.rows && r != step.row ==> t.rows[r] == s.rows[r]
  {
  }

  lemma SoundRows(s: State)
    requires Sound(s)
    ensures RowsSound(s) && forall r :: r in s.rows ==> RowSound(s, s.rows[r])
  {
  }

  lemma RefreshKeepsSound(s: State, step: Step)
    requires step.Refresh? && Enabled(s, step) && Sound(s)
    ensures Sound(Do(s, step)) && Extends(s, Do(s, step))
  {
    hide *;
    RefreshWrites(s, step);
    SoundRows(s);
    RefreshedRow(s, step);
    RowsStay(s, Do(s, step));
    SoundFrom(s, Do(s, step));
  }

  // ----- every step, every run -----

  lemma StepInv(s: State, step: Step)
    requires Inv(s) && Enabled(s, step)
    ensures Inv(Do(s, step)) && Extends(s, Do(s, step))
  {
    hide Sound, JobsOk, Extends, Finished, CanMove, Moved, Started, Fresh;
    match step
    case Start(j, o) => StartKeepsJobs(s, j, o); StartKeepsSound(s, j, o);
    case Refresh(_) => RefreshKeepsJobs(s, step); RefreshKeepsSound(s, step);
    case Work(j, w, move) => MoveInv(s, j, w, move);
    case _ => JobStepInv(s, step);
  }

  lemma MoveInv(s: State, j: nat, w: nat, move: Move)
    requires CanMove(s, j, w, move) && Sound(s) && JobsOk(s)
    ensures var t := Moved(s, j, w, move); Sound(t) && JobsOk(t) && Extends(s, t)
  {
    assert JobOk(s, j);
    hide Sound, JobsOk, JobOk, Extends, CanMove, Moved;
    MoveKeepsJobs(s, j, w, move);
    MoveKeepsSound(s, j, w, move);
    MoveWrites(s, j, w, move);
  }

  /** The steps that touch the job table only. */
  lemma JobStepInv(s: State, step: Step)
    requires (step.Cancel? || step.Unopened? || step.Finish? || step.Restart?) && Enabled(s, step)
    requires Sound(s) && JobsOk(s)
    ensures var t := Do(s, step); Sound(t) && JobsOk(t) && Extends(s, t)
  {
    var t := Do(s, step);
    hide Sound, JobsOk, Extends, Finished;
    match step
    case Cancel(_, _) => CancelKeeps(s, step); TablesStay(s, t);
    case Unopened(_, _) => UnopenedKeeps(s, step); TablesStay(s, t);
    case Finish(_, _, _) => FinishKeeps(s, step); FinishWrites(s, step); TablesStay(s, t);
    case Restart => RestartKeeps(s); TablesStay(s, t);
  }

  lemma FinishWrites(s: State, step: Step)
    requires step.Finish? && Enabled(s, step)
    ensures var t := Do(s, step);
            && t == s.(jobs := t.jobs) && t.jobs.Keys == s.jobs.Keys
            && forall j :: j in t.jobs ==> t.jobs[j].workers == s.jobs[j].workers
  {
  }

  lemma ExtendsOnAndOn(s: State, t: State, u: State)
    requires Extends(s, t) && Extends(t, u)
    ensures Extends(s, u)
  {
  }

  /** Every run keeps the invariant, and a row once completed keeps its bytes, its sum and
      its place for the rest of the run. */
  lemma {:induction false} RunKeeps(s: State, steps: seq<Step>)
    requires Inv(s) && IsRun(s, steps)
    ensures Inv(After(s, steps)) && Extends(s, After(s, steps))
    decreases |steps|
  {
    hide Inv, Enabled, Do;
    if steps == [] {
    } else {
      var t := Do(s, steps[0]);
      StepInv(s, steps[0]);
      hide Extends;
      RunKeeps(t, steps[1..]);
      ExtendsOnAndOn(s, t, After(s, steps));
    }
  }

  lemma EmptyInv()
    ensures Inv(EMPTY)
  {
  }
}
