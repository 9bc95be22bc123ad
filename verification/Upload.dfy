/** The upload engine and the tables it works on: jobs with their worker pools, part rows,
    and the attachments stored so far. A step is what one worker does between two points
    at which another can run; any number of jobs run at once. */
module Upload {
  import opened Wrappers
  import opened Bytes
  import opened Text

  /** An attachment: what AES-GCM sealed under the one master key. It opens under the
      additional data it was sealed with and nothing else. */
  datatype Blob = Sealed(aad: string, plain: seq<byte>)

  /** A SHA-256 sum: sums are equal only for equal bytes. */
  datatype Digest = NoSum | Sha256(of: seq<byte>)

  /** Where an attachment lives, and the link it was last seen under. */
  datatype Place = Nowhere | Message(id: nat)
  datatype Url = NoUrl | LinkTo(message: nat)

  datatype RowStatus = Pending | Completed | Failed

  datatype Row = Row(job: nat, file: string, index: nat, offset: nat, size: nat,
                     sha: Digest, place: Place, url: Url, status: RowStatus)

  /** A worker and the part it holds; n is how many bytes of the part it read. */
  datatype Worker =
    | Idle
    | Reading(row: nat)
    | Reusing(row: nat, n: nat, found: Row)
    | Sealing(row: nat, n: nat)
    | Storing(row: nat, n: nat, message: nat)
    | Exited

  datatype JobStatus = Active | JobPaused | JobCompleted | JobFailed

  datatype Job = Job(rows: set<nat>, total: nat, queue: seq<nat>, workers: seq<Worker>,
                     errors: nat, cancelled: bool, running: bool, status: JobStatus)

  datatype State = State(files: map<string, seq<byte>>, rows: map<nat, Row>, store: map<nat, Blob>, jobs: map<nat, Job>)

  const EMPTY := State(map[], map[], map[], map[])

  function Aad(file: string, index: nat): string {
    file + ":" + Decimal(index)
  }

  /** The bytes a part row stands for. */
  function Plain(s: State, r: Row): seq<byte> {
    if r.file in s.files && r.offset + r.size <= |s.files[r.file]|
    then s.files[r.file][r.offset..r.offset + r.size] else []
  }

  /** What a read of the first n of them yields. */
  function Data(s: State, r: Row, n: nat): seq<byte> {
    if n <= |Plain(s, r)| then Plain(s, r)[..n] else []
  }

  /** The rows FindChunkByHash and FindChunksByHash look at. */
  predicate HasHash(r: Row, sha: Digest) {
    sha != NoSum && r.sha == sha && r.status == Completed && r.place != Nowhere
  }

  /** What a worker can do. A failing read of some bytes goes on like a whole one: only a
      failing read of none is an error. MarkChunkFailed may fail itself, which is ignored. */
  datatype Move =
    | Take
    | Leave
    | LookUp(n: nat, found: Option<nat>)
    | Reuse
    | Send(message: nat)
    | Record
    | Fail(marked: bool)
    | Reject(marked: bool)

  /** What UploadFile hands to a new job. */
  datatype Order = Order(file: string, content: seq<byte>, parts: map<nat, Row>, queue: seq<nat>, workers: nat)

  datatype Step =
    | Start(job: nat, order: Order)
    | Work(job: nat, w: nat, move: Move)
    | Cancel(job: nat, written: bool)
    | Unopened(job: nat, written: bool)
    | Finish(job: nat, counted: bool, written: bool)
    | Refresh(row: nat)
    | Restart

  predicate Holds(w: Worker) {
    !w.Idle? && !w.Exited?
  }

  predicate At(s: State, j: nat, w: nat) {
    j in s.jobs && s.jobs[j].running && w < |s.jobs[j].workers|
  }

  function Pc(s: State, j: nat, w: nat): Worker
    requires At(s, j, w)
  {
    s.jobs[j].workers[w]
  }

  /** The rows lie within the file and are pending, and each is queued once. The ids are new,
      and so is the file's. */
  ghost predicate Fresh(s: State, j: nat, o: Order) {
    && j !in s.jobs && o.file !in s.files && o.workers > 0
    && (forall r :: r in o.parts ==> r !in s.rows && FreshRow(j, o.file, o.content, o.parts[r]))
    && Lists(o.queue, o.parts.Keys)
  }

  ghost predicate Lists(queue: seq<nat>, rows: set<nat>) {
    (forall r :: r in queue <==> r in rows) && |queue| == |rows|
  }

  predicate FreshRow(job: nat, file: string, content: seq<byte>, r: Row) {
    && r.job == job && r.file == file && r.offset + r.size <= |content|
    && r.sha == NoSum && r.place == Nowhere && r.url == NoUrl && r.status == Pending
  }

  ghost predicate CanMove(s: State, j: nat, w: nat, move: Move) {
    && At(s, j, w)
    && var pc := Pc(s, j, w);
       match move
       case Take => pc.Idle? && s.jobs[j].queue != []
       case Leave => pc.Idle? && (s.jobs[j].queue == [] || s.jobs[j].cancelled)
       case LookUp(n, found) =>
         && pc.Reading? && pc.row in s.rows
         && (n == s.rows[pc.row].size || 0 < n < s.rows[pc.row].size)
         && (found.Some? ==> found.value in s.rows && HasHash(s.rows[found.value], Sha256(Data(s, s.rows[pc.row], n))))
       case Reuse => pc.Reusing? && pc.row in s.rows
       case Send(m) => pc.Sealing? && pc.row in s.rows && m !in s.store
       case Record => pc.Storing? && pc.row in s.rows
       case Fail(_) => Holds(pc)
       case Reject(_) => pc.Sealing?
  }

  ghost predicate Enabled(s: State, step: Step) {
    match step
    case Start(j, order) => Fresh(s, j, order)
    case Work(j, w, move) => CanMove(s, j, w, move)
    case Cancel(j, _) => j in s.jobs
    case Unopened(j, _) => j in s.jobs && NotBegun(s.jobs[j])
    case Finish(j, _, _) =>
      j in s.jobs && s.jobs[j].running && forall w :: 0 <= w < |s.jobs[j].workers| ==> s.jobs[j].workers[w].Exited?
    case Refresh(r) => r in s.rows && s.rows[r].status == Completed && s.rows[r].place.Message?
    case Restart => true
  }

  function SetWorker(s: State, j: nat, w: nat, pc: Worker): State
    requires At(s, j, w)
  {
    s.(jobs := s.jobs[j := s.jobs[j].(workers := s.jobs[j].workers[w := pc])])
  }

  function TakePart(s: State, j: nat, w: nat): State
    requires At(s, j, w) && s.jobs[j].queue != []
  {
    var job := s.jobs[j];
    s.(jobs := s.jobs[j := job.(workers := job.workers[w := Reading(job.queue[0])], queue := job.queue[1..])])
  }

  /** MarkChunkFailed, and the error sent on the job's channel. */
  function FailPart(s: State, j: nat, w: nat, marked: bool, pc: Worker): State
    requires At(s, j, w) && Holds(Pc(s, j, w))
  {
    var job := s.jobs[j];
    var r := Pc(s, j, w).row;
    s.(rows := if marked && r in s.rows then s.rows[r := s.rows[r].(status := Failed)] else s.rows,
       jobs := s.jobs[j := job.(workers := job.workers[w := pc], errors := job.errors + 1)])
  }

  /** UpdateChunkComplete: one statement writes the whole completed state. */
  function CompletePart(s: State, j: nat, w: nat, r: nat, n: nat, place: Place, url: Url): State
    requires At(s, j, w) && r in s.rows
  {
    SetWorker(s, j, w, Idle).(rows :=
      s.rows[r := s.rows[r].(sha := Sha256(Data(s, s.rows[r], n)), place := place, url := url, status := Completed)])
  }

  /** How many of a job's rows the part table holds with a status. */
  ghost function WithStatus(s: State, rows: set<nat>, status: RowStatus): set<nat> {
    set r | r in rows && r in s.rows && s.rows[r].status == status
  }

  ghost function Moved(s: State, j: nat, w: nat, move: Move): State
    requires CanMove(s, j, w, move)
  {
    var pc := Pc(s, j, w);
    match move
    case Take => TakePart(s, j, w)
    case Leave => SetWorker(s, j, w, Exited)
    case LookUp(n, found) =>
      SetWorker(s, j, w,
        if found.Some? && s.rows[found.value].url != NoUrl then Reusing(pc.row, n, s.rows[found.value])
        else Sealing(pc.row, n))
    case Reuse => CompletePart(s, j, w, pc.row, pc.n, pc.found.place, pc.found.url)
    case Send(m) =>
      var r := s.rows[pc.row];
      var t := SetWorker(s, j, w, Storing(pc.row, pc.n, m));
      t.(store := s.store[m := Sealed(Aad(r.file, r.index), Data(s, r, pc.n))])
    case Record => CompletePart(s, j, w, pc.row, pc.n, Message(pc.message), LinkTo(pc.message))
    case Fail(marked) => FailPart(s, j, w, marked, Idle)
    case Reject(marked) => FailPart(s, j, w, marked, Exited)
  }

  /** CancelJob, which a request to cancel a job leads to once for uploads and once for downloads.
      Only a job that still runs is told to stop, but any job is marked as paused. */
  function Paused(job: Job, written: bool): Job {
    job.(cancelled := job.cancelled || job.running, status := if written then JobPaused else job.status)
  }

  /** No worker has been started, as far as can be seen. */
  ghost predicate NotBegun(job: Job) {
    job.running && |job.queue| == |job.rows| && forall w :: 0 <= w < |job.workers| ==> job.workers[w].Idle?
  }

  /** runUpload when the staged file cannot be opened: the rows stay pending. */
  function Abandoned(job: Job, written: bool): Job {
    job.(queue := [], workers := [], running := false, status := if written then JobFailed else job.status)
  }

  /** The completion gate of runUpload. A count that fails reads as none, and a status that
      cannot be written stays as it was. */
  ghost function Finished(s: State, j: nat, counted: bool, written: bool): State
    requires j in s.jobs
  {
    var job := s.jobs[j];
    var copies := if counted then |WithStatus(s, job.rows, Completed)| else 0;
    var status := if job.errors > 0 || copies < job.total then JobFailed else JobCompleted;
    s.(jobs := s.jobs[j := job.(running := false, status := if written then status else job.status)])
  }

  function Pool(n: nat): (ws: seq<Worker>)
    ensures |ws| == n && forall w :: 0 <= w < n ==> ws[w] == Idle
  {
    if n == 0 then [] else Pool(n - 1) + [Idle]
  }

  function NewJob(o: Order): Job {
    Job(o.parts.Keys, |o.queue|, o.queue, Pool(o.workers), 0, false, true, Active)
  }

  function Started(s: State, j: nat, o: Order): State {
    State(s.files[o.file := o.content], s.rows + o.parts, s.store, s.jobs[j := NewJob(o)])
  }

  ghost function Do(s: State, step: Step): State
    requires Enabled(s, step)
  {
    match step
    case Start(j, order) => Started(s, j, order)
    case Work(j, w, move) => Moved(s, j, w, move)
    case Cancel(j, written) => s.(jobs := s.jobs[j := Paused(s.jobs[j], written)])
    case Unopened(j, written) => s.(jobs := s.jobs[j := Abandoned(s.jobs[j], written)])
    case Finish(j, counted, written) => Finished(s, j, counted, written)
    case Refresh(r) => s.(rows := s.rows[r := s.rows[r].(url := LinkTo(s.rows[r].place.id))])
    case Restart => s.(jobs := map j | j in s.jobs :: s.jobs[j].(queue := [], workers := [], running := false))
  }

  ghost predicate IsRun(s: State, steps: seq<Step>)
    decreases |steps|
  {
    steps == [] || (Enabled(s, steps[0]) && IsRun(Do(s, steps[0]), steps[1..]))
  }

  ghost function After(s: State, steps: seq<Step>): State
    requires IsRun(s, steps)
    decreases |steps|
  {
    if steps == [] then s else After(Do(s, steps[0]), steps[1..])
  }

  // ----- the rows keep what they promise -----

  /** A completed row leads to an attachment with the bytes that were read for it, and some
      completed row with the same sum and place names the data it was sealed under. */
  ghost predicate RowSound(s: State, r: Row) {
    && r.file in s.files && r.offset + r.size <= |s.files[r.file]|
    && (r.status == Completed ==>
          && r.sha.Sha256? && r.sha.of <= Plain(s, r)
          && r.place.Message? && r.place.id in s.store && s.store[r.place.id].plain == r.sha.of
          && r.url == LinkTo(r.place.id)
          && exists o :: o in s.rows && SealedBy(s, s.rows[o], r))
  }

  ghost predicate SealedBy(s: State, o: Row, r: Row) {
    && HasHash(o, r.sha) && o.place == r.place
    && r.place.Message? && r.place.id in s.store && s.store[r.place.id].aad == Aad(o.file, o.index)
  }

  /** What a worker in the middle of a part knows. */
  ghost predicate WorkerSound(s: State, w: Worker) {
    Holds(w) ==>
      && w.row in s.rows
      && var r := s.rows[w.row];
         && (!w.Reading? ==> w.n <= r.size)
         && (w.Reusing? ==>
               RowSound(s, w.found) && w.found.status == Completed && w.found.sha == Sha256(Data(s, r, w.n)))
         && (w.Storing? ==> w.message in s.store && s.store[w.message] == Sealed(Aad(r.file, r.index), Data(s, r, w.n)))
  }

  ghost predicate RowsSound(s: State) {
    forall r :: r in s.rows ==> RowSound(s, s.rows[r])
  }

  ghost predicate WorkersSound(s: State, ws: seq<Worker>) {
    forall w :: 0 <= w < |ws| ==> WorkerSound(s, ws[w])
  }

  ghost predicate Sound(s: State) {
    && RowsSound(s)
    && (forall j :: j in s.jobs ==> WorkersSound(s, s.jobs[j].workers))
  }

  /** Nothing that recovery rests on is ever taken away: files and attachments stay, a
      row keeps what it stands for, and a completed row changes only by a fresher link. */
  ghost predicate Extends(s: State, t: State) {
    && (forall f :: f in s.files ==> f in t.files && t.files[f] == s.files[f])
    && (forall m :: m in s.store ==> m in t.store && t.store[m] == s.store[m])
    && (forall r :: r in s.rows ==> r in t.rows && RowKept(s.rows[r], t.rows[r]))
  }

  ghost predicate RowKept(a: Row, b: Row) {
    && b.job == a.job && b.file == a.file && b.index == a.index && b.offset == a.offset && b.size == a.size
    && (a.status == Completed ==> b == a.(url := b.url))
  }

  lemma SoundStays(s: State, t: State, r: Row)
    requires Extends(s, t) && RowSound(s, r)
    ensures RowSound(t, r) && Plain(t, r) == Plain(s, r)
  {
    if r.status == Completed {
      var o :| o in s.rows && SealedBy(s, s.rows[o], r);
      assert SealedBy(t, t.rows[o], r);
    }
  }

  lemma DataStays(s: State, t: State, r: nat, n: nat)
    requires Extends(s, t) && r in s.rows && RowSound(s, s.rows[r])
    ensures Data(t, t.rows[r], n) == Data(s, s.rows[r], n)
    ensures Aad(t.rows[r].file, t.rows[r].index) == Aad(s.rows[r].file, s.rows[r].index)
  {
  }

  lemma HeldRowStays(s: State, t: State, r: nat)
    requires Extends(s, t) && r in s.rows && RowsSound(s)
    ensures r in t.rows && t.rows[r].size == s.rows[r].size && t.rows[r].file == s.rows[r].file
    ensures t.rows[r].index == s.rows[r].index && RowSound(s, s.rows[r])
  {
  }

  lemma StoreStays(s: State, t: State, m: nat)
    requires Extends(s, t) && m in s.store
    ensures m in t.store && t.store[m] == s.store[m]
  {
  }

  lemma WorkerStays(s: State, t: State, w: Worker)
    requires Extends(s, t) && WorkerSound(s, w) && RowsSound(s)
    ensures WorkerSound(t, w)
  {
    hide RowSound, Data, Aad, RowsSound, Extends;
    if Holds(w) {
      HeldRowStays(s, t, w.row);
      if !w.Reading? {
        DataStays(s, t, w.row, w.n);
      }
      if w.Reusing? {
        SoundStays(s, t, w.found);
      }
      if w.Storing? {
        StoreStays(s, t, w.message);
      }
    }
  }

  lemma WorkersStay(s: State, t: State, ws: seq<Worker>)
    requires Extends(s, t) && WorkersSound(s, ws) && RowsSound(s)
    ensures WorkersSound(t, ws)
  {
    forall w | 0 <= w < |ws| ensures WorkerSound(t, ws[w]) {
      WorkerStays(s, t, ws[w]);
    }
  }

  lemma RowsStay(s: State, t: State)
    requires Extends(s, t) && RowsSound(s)
    requires forall r :: r in t.rows ==> (r in s.rows && t.rows[r] == s.rows[r]) || RowSound(t, t.rows[r])
    ensures RowsSound(t)
  {
    forall r | r in t.rows ensures RowSound(t, t.rows[r]) {
      if r in s.rows && t.rows[r] == s.rows[r] {
        SoundStays(s, t, s.rows[r]);
      }
    }
  }
}
