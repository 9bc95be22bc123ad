/** The whole way: a file is laid out, uploaded by a job that ends completed while other jobs
    run, its rows are fetched back, and what a download sends is the file. */
module RoundTrip {
  import opened Wrappers
  import opened Bytes
  import opened Upload
  import opened UploadRuns
  import opened WholeReads
  import opened Recovery
  import opened Layout
  import opened Ranges
  import OrderedWriter

  type Part = OrderedWriter.Part

  // ----- the layout -----

  ghost predicate Matches(r: Row, p: Planned) {
    r.index == p.index && r.offset == p.offset && r.size == p.size
  }

  /** The rows of an order are those of the layout. */
  ghost predicate RowsOf(o: Order, plan: seq<Planned>) {
    && (forall k :: k in o.parts ==> IsPlanned(o.parts[k], plan))
    && (forall p :: p in plan ==> HasRow(o, p))
  }

  ghost predicate IsPlanned(r: Row, plan: seq<Planned>) {
    exists p :: p in plan && Matches(r, p)
  }

  ghost predicate HasRow(o: Order, p: Planned) {
    exists k :: k in o.parts && Matches(o.parts[k], p)
  }

  ghost predicate PlacedAt(index: nat, offset: nat, size: nat, fileSize: nat, c: nat)
    requires c > 0
  {
    index < PartCount(fileSize, c) && offset == index * c && size == PartSize(fileSize, c, index)
  }

  lemma {:induction false} PlanPlaces(fileSize: nat, c: nat, servers: seq<seq<string>>, starts: seq<nat>, k: nat,
                                      p: Planned)
    requires c > 0 && k <= |servers| == |starts| && p in Plan(fileSize, c, servers, starts, k)
    ensures PlacedAt(p.index, p.offset, p.size, fileSize, c)
  {
    if k > 0 {
      if p in Plan(fileSize, c, servers, starts, k - 1) {
        PlanPlaces(fileSize, c, servers, starts, k - 1, p);
      } else {
        ServerPlaces(fileSize, c, k - 1, servers[k - 1], starts[k - 1], PartCount(fileSize, c), p);
      }
    }
  }

  lemma {:induction false} ServerPlaces(fileSize: nat, c: nat, server: nat, channels: seq<string>, start: nat, n: nat,
                                        p: Planned)
    requires c > 0 && channels != [] && n <= PartCount(fileSize, c) &&
             p in ServerPlan(fileSize, c, server, channels, start, n)
    ensures PlacedAt(p.index, p.offset, p.size, fileSize, c)
  {
    if n > 0 && p in ServerPlan(fileSize, c, server, channels, start, n - 1) {
      ServerPlaces(fileSize, c, server, channels, start, n - 1, p);
    }
  }

  lemma {:induction false} PlanHasAll(fileSize: nat, c: nat, servers: seq<seq<string>>, starts: seq<nat>,
                                      k: nat, j: nat, i: nat) returns (p: Planned)
    requires c > 0 && j < k <= |servers| == |starts| && servers[j] != [] && i < PartCount(fileSize, c)
    ensures p in Plan(fileSize, c, servers, starts, k) && p.index == i
  {
    hide *;
    if j == k - 1 {
      p := ServerHasAll(fileSize, c, j, servers[j], starts[j], PartCount(fileSize, c), i);
      PlanHasServer(fileSize, c, servers, starts, k, p);
    } else {
      p := PlanHasAll(fileSize, c, servers, starts, k - 1, j, i);
      PlanGrows(fileSize, c, servers, starts, k, p);
    }
  }

  lemma PlanHasServer(fileSize: nat, c: nat, servers: seq<seq<string>>, starts: seq<nat>, k: nat, p: Planned)
    requires c > 0 && 0 < k <= |servers| == |starts| && servers[k - 1] != []
    requires p in ServerPlan(fileSize, c, k - 1, servers[k - 1], starts[k - 1], PartCount(fileSize, c))
    ensures p in Plan(fileSize, c, servers, starts, k)
  {
    hide ServerPlan, PartCount;
  }

  lemma PlanGrows(fileSize: nat, c: nat, servers: seq<seq<string>>, starts: seq<nat>, k: nat, p: Planned)
    requires c > 0 && 0 < k <= |servers| == |starts| && p in Plan(fileSize, c, servers, starts, k - 1)
    ensures p in Plan(fileSize, c, servers, starts, k)
  {
    hide ServerPlan, PartCount;
  }

  lemma {:induction false} ServerHasAll(fileSize: nat, c: nat, server: nat, channels: seq<string>, start: nat, n: nat,
                                        i: nat) returns (p: Planned)
    requires c > 0 && channels != [] && i < n <= PartCount(fileSize, c)
    ensures p in ServerPlan(fileSize, c, server, channels, start, n) && p.index == i
  {
    if i == n - 1 {
      p := PlannedPart(fileSize, c, server, channels, start, i);
    } else {
      p := ServerHasAll(fileSize, c, server, channels, start, n - 1, i);
    }
  }

  /** Every row of the order is in its place, and every place has a row. */
  ghost predicate WellPlanned(o: Order, c: nat) {
    && c > 0
    && (forall k :: k in o.parts ==> PlacedAt(o.parts[k].index, o.parts[k].offset, o.parts[k].size, |o.content|, c))
    && (forall i :: 0 <= i < PartCount(|o.content|, c) ==> HasIndex(o, i))
  }

  ghost predicate HasIndex(o: Order, i: nat) {
    exists k :: k in o.parts && o.parts[k].index == i
  }

  lemma LayoutIsWellPlanned(o: Order, c: nat, servers: seq<seq<string>>, starts: seq<nat>, j: nat)
    requires c > 0 && |servers| == |starts| && j < |servers| && servers[j] != []
    requires RowsOf(o, Plan(|o.content|, c, servers, starts, |servers|))
    ensures WellPlanned(o, c)
  {
    hide Plan, PlacedAt, PartCount, RowsOf;
    forall k | k in o.parts ensures PlacedAt(o.parts[k].index, o.parts[k].offset, o.parts[k].size, |o.content|, c) {
      var p := PlannedOf(o, Plan(|o.content|, c, servers, starts, |servers|), k);
      PlanPlaces(|o.content|, c, servers, starts, |servers|, p);
    }
    forall i | 0 <= i < PartCount(|o.content|, c) ensures HasIndex(o, i) {
      var p := PlanHasAll(|o.content|, c, servers, starts, |servers|, j, i);
      HasPlanned(o, Plan(|o.content|, c, servers, starts, |servers|), p);
    }
  }

  lemma PlannedOf(o: Order, plan: seq<Planned>, k: nat) returns (p: Planned)
    requires RowsOf(o, plan) && k in o.parts
    ensures p in plan && Matches(o.parts[k], p)
  {
    assert IsPlanned(o.parts[k], plan);
    p :| p in plan && Matches(o.parts[k], p);
  }

  lemma HasPlanned(o: Order, plan: seq<Planned>, p: Planned)
    requires RowsOf(o, plan) && p in plan
    ensures HasIndex(o, p.index)
  {
    assert HasRow(o, p);
    var k :| k in o.parts && Matches(o.parts[k], p);
  }

  // ----- the rows of one file -----

  /** No other upload adds rows to a file. */
  ghost predicate RowsWithin(s: State, file: string, keys: set<nat>) {
    file in s.files && forall r :: r in s.rows && s.rows[r].file == file ==> r in keys
  }

  lemma StepAddsNone(s: State, step: Step, file: string, keys: set<nat>)
    requires Inv(s) && Enabled(s, step) && RowsWithin(s, file, keys)
    ensures RowsWithin(Do(s, step), file, keys)
  {
    if step.Start? {
      hide Fresh, Started;
      StartAddsNone(s, step.job, step.order, file, keys);
    } else {
      hide *;
      StepInv(s, step);
      SameKeys(s, step);
      SameRowsWithin(s, Do(s, step), file, keys);
    }
  }

  lemma SameRowsWithin(s: State, t: State, file: string, keys: set<nat>)
    requires Extends(s, t) && t.rows.Keys == s.rows.Keys && RowsWithin(s, file, keys)
    ensures RowsWithin(t, file, keys)
  {
  }

  lemma SameKeys(s: State, step: Step)
    requires Inv(s) && Enabled(s, step) && !step.Start?
    ensures Do(s, step).rows.Keys == s.rows.Keys
  {
    if step.Work? {
      assert JobOk(s, step.job);
      MoveWrites(s, step.job, step.w, step.move);
    } else {
      hide Moved, CanMove, Inv;
    }
  }

  lemma StartAddsNone(s: State, j: nat, o: Order, file: string, keys: set<nat>)
    requires Fresh(s, j, o) && RowsWithin(s, file, keys)
    ensures RowsWithin(Started(s, j, o), file, keys)
  {
    StartWrites(s, j, o);
  }

  lemma {:induction false} RunAddsNone(s: State, steps: seq<Step>, file: string, keys: set<nat>)
    requires Inv(s) && IsRun(s, steps) && RowsWithin(s, file, keys)
    ensures RowsWithin(After(s, steps), file, keys)
    decreases |steps|
  {
    hide Inv, Enabled, Do, RowsWithin;
    if steps != [] {
      StepInv(s, steps[0]);
      StepAddsNone(s, steps[0], file, keys);
      RunAddsNone(Do(s, steps[0]), steps[1..], file, keys);
    }
  }

  // ----- the round trip -----

  /** A part as a download gets it: a completed row of the file, with what fetchSingleChunk
      makes of it, whichever way to the attachment is up. */
  ghost predicate Fetches(s: State, file: string, k: nat, p: Part) {
    && k in s.rows && s.rows[k].file == file && s.rows[k].status == Completed
    && p.index == s.rows[k].index && p.offset == s.rows[k].offset && p.size == s.rows[k].size
    && exists origs, linkUp, messageUp ::
         Answers(s, s.rows[k].sha, origs) && (linkUp || messageUp)
         && Fetched(s.store, file, s.rows[k], origs, linkUp, messageUp) == Ok(p.data)
  }

  /** The completed rows of a file, in any order, replicas included. */
  ghost predicate Downloads(s: State, file: string, parts: seq<Part>) {
    && (forall p :: p in parts ==> FromRow(s, file, p))
    && (forall k :: k in s.rows && s.rows[k].file == file && s.rows[k].status == Completed ==> Gets(s, file, k, parts))
  }

  ghost predicate FromRow(s: State, file: string, p: Part) {
    exists k :: Fetches(s, file, k, p)
  }

  ghost predicate Gets(s: State, file: string, k: nat, parts: seq<Part>) {
    exists p :: p in parts && Fetches(s, file, k, p)
  }

  lemma FetchIsSlice(s: State, file: string, k: nat, p: Part)
    requires Inv(s) && Fetches(s, file, k, p) && WholeRow(s.rows[k])
    ensures file in s.files && p.offset + p.size <= |s.files[file]| && p.size > 0
    ensures p.data == s.files[file][p.offset..p.offset + p.size]
  {
    hide Inv, Answers, Fetched, Plain, WholeRow;
    var origs, linkUp, messageUp :|
      Answers(s, s.rows[k].sha, origs) && (linkUp || messageUp)
      && Fetched(s.store, file, s.rows[k], origs, linkUp, messageUp) == Ok(p.data);
    WholePartOpens(s, k, file, origs, linkUp, messageUp);
  }

  // ----- what the upload leaves -----

  lemma {:induction false} RunKeepsJobRows(s: State, steps: seq<Step>, j: nat)
    requires Inv(s) && IsRun(s, steps) && j in s.jobs
    ensures j in After(s, steps).jobs && After(s, steps).jobs[j].rows == s.jobs[j].rows
    decreases |steps|
  {
    hide Inv, Enabled, Do;
    if steps != [] {
      StepInv(s, steps[0]);
      JobRowsStay(s, steps[0], j);
      RunKeepsJobRows(Do(s, steps[0]), steps[1..], j);
    }
  }

  lemma NoneBefore(s: State, j: nat, o: Order)
    requires RowsSound(s) && Fresh(s, j, o)
    ensures RowsWithin(Started(s, j, o), o.file, o.parts.Keys)
  {
    StartWrites(s, j, o);
    forall r | r in s.rows ensures s.rows[r].file != o.file {
      assert RowSound(s, s.rows[r]);
    }
  }

  /** Every row of the order is stored, and no other row is the file's. */
  ghost predicate Stored(s: State, o: Order) {
    && Inv(s) && WholeRows(s, o.parts.Keys) && RowsWithin(s, o.file, o.parts.Keys)
    && o.file in s.files && s.files[o.file] == o.content
    && (forall k :: k in o.parts ==> k in s.rows && s.rows[k].status == Completed && SamePlace(s.rows[k], o.parts[k]))
  }

  predicate SamePlace(r: Row, q: Row) {
    r.file == q.file && r.index == q.index && r.offset == q.offset && r.size == q.size
  }

  lemma CompletedStores(s: State, o: Order, j: nat)
    requires Inv(s) && WholeRows(s, o.parts.Keys) && RowsWithin(s, o.file, o.parts.Keys)
    requires o.file in s.files && s.files[o.file] == o.content
    requires forall k :: k in o.parts ==> k in s.rows && SamePlace(s.rows[k], o.parts[k])
    requires j in s.jobs && s.jobs[j].status == JobCompleted && s.jobs[j].rows == o.parts.Keys
    ensures Stored(s, o)
  {
    assert JobOk(s, j);
    forall k | k in o.parts ensures s.rows[k].status == Completed {
      assert k in Done(s, j);
    }
  }

  /** What is stored stays stored, whatever is done afterwards. */
  lemma StoredStays(s: State, o: Order, more: seq<Step>)
    requires Stored(s, o) && IsRun(s, more)
    ensures Stored(After(s, more), o)
  {
    StoredIs(s, o);
    hide *;
    RunKeeps(s, more);
    RunAddsNone(s, more, o.file, o.parts.Keys);
    ExtendsStored(s, After(s, more), o);
  }

  lemma StoredIs(s: State, o: Order)
    requires Stored(s, o)
    ensures Inv(s) && RowsWithin(s, o.file, o.parts.Keys)
  {
  }

  lemma ExtendsStored(s: State, t: State, o: Order)
    requires Stored(s, o) && Extends(s, t) && Inv(t) && RowsWithin(t, o.file, o.parts.Keys)
    ensures Stored(t, o)
  {
    hide Inv, RowsWithin;
  }

  lemma ExtendsPlaces(s: State, t: State, o: Order)
    requires Extends(s, t) && o.file in s.files && s.files[o.file] == o.content
    requires forall k :: k in o.parts ==> k in s.rows && s.rows[k] == o.parts[k]
    ensures o.file in t.files && t.files[o.file] == o.content
    ensures forall k :: k in o.parts ==> k in t.rows && SamePlace(t.rows[k], o.parts[k])
  {
  }

  /** What a job's start leaves. */
  lemma StartStores(s0: State, j: nat, o: Order)
    requires Inv(s0) && Fresh(s0, j, o)
    ensures var s1 := Started(s0, j, o);
            && Inv(s1) && Whole(s1, o.parts.Keys) && RowsWithin(s1, o.file, o.parts.Keys)
            && j in s1.jobs && s1.jobs[j].rows == o.parts.Keys
            && o.file in s1.files && s1.files[o.file] == o.content
            && forall k :: k in o.parts ==> k in s1.rows && s1.rows[k] == o.parts[k]
  {
    NewScope(s0, j, o);
    StartIs(s0, j, o);
    StartWrites(s0, j, o);
    assert RowsSound(s0);
    hide *;
    NoneBefore(s0, j, o);
    StepInv(s0, Start(j, o));
    StepKeepsWhole(s0, Start(j, o), o.parts.Keys);
  }

  lemma NewScope(s0: State, j: nat, o: Order)
    requires Inv(s0) && Fresh(s0, j, o)
    ensures Whole(s0, o.parts.Keys)
  {
    hide Sound, JobsOk, FreshRow, Lists;
    NewIsWhole(s0, o.parts.Keys);
  }

  lemma StartIs(s0: State, j: nat, o: Order)
    requires Fresh(s0, j, o)
    ensures Enabled(s0, Start(j, o)) && Do(s0, Start(j, o)) == Started(s0, j, o)
    ensures ReadsWhole(s0, Start(j, o), o.parts.Keys)
    ensures var s1 := Started(s0, j, o);
            j in s1.jobs && s1.jobs[j].rows == o.parts.Keys && o.file in s1.files && s1.files[o.file] == o.content
  {
  }

  /** The job is marked completed after the steps. It may be marked as paused later. */
  ghost predicate Completes(s: State, j: nat, steps: seq<Step>) {
    IsRun(s, steps) && j in After(s, steps).jobs && After(s, steps).jobs[j].status == JobCompleted
  }

  lemma CompletesIs(s: State, j: nat, steps: seq<Step>)
    requires Completes(s, j, steps)
    ensures IsRun(s, steps) && j in After(s, steps).jobs && After(s, steps).jobs[j].status == JobCompleted
  {
  }

  lemma RunStores(s0: State, j: nat, o: Order, steps: seq<Step>)
    requires Inv(s0) && Fresh(s0, j, o)
    requires Completes(Started(s0, j, o), j, steps) && WholeRun(Started(s0, j, o), steps, o.parts.Keys)
    ensures Stored(After(Started(s0, j, o), steps), o)
  {
    var s1 := Started(s0, j, o);
    var s := After(s1, steps);
    CompletesIs(s1, j, steps);
    hide *;
    StartStores(s0, j, o);
    RunKeeps(s1, steps);
    RunKeepsWhole(s1, steps, o.parts.Keys);
    WholeHasRows(s, o.parts.Keys);
    RunAddsNone(s1, steps, o.file, o.parts.Keys);
    RunKeepsJobRows(s1, steps, j);
    ExtendsPlaces(s1, s, o);
    CompletedStores(s, o, j);
  }

  // ----- the round trip -----

  lemma {:induction false} SizeUpTo(m: map<nat, Part>, n: nat)
    requires forall i: nat :: i in m <==> i < n
    ensures |m| == n
  {
    assert |m| == |m.Keys|;
    if n == 0 {
      assert m.Keys == {};
    } else {
      SizeUpTo(m - {n - 1}, n - 1);
      assert m.Keys == (m - {n - 1}).Keys + {n - 1};
    }
  }

  lemma StoredRow(s: State, o: Order, k: nat)
    requires Stored(s, o) && k in s.rows && s.rows[k].file == o.file
    ensures k in o.parts && SamePlace(s.rows[k], o.parts[k]) && s.rows[k].status == Completed
    ensures Inv(s) && WholeRow(s.rows[k]) && o.file in s.files && s.files[o.file] == o.content
  {
    hide Inv, WholeRow;
  }

  /** What each downloaded part is. */
  lemma DownloadedPart(s: State, o: Order, c: nat, parts: seq<Part>, p: Part)
    requires Stored(s, o) && WellPlanned(o, c) && FromRow(s, o.file, p)
    ensures PlacedAt(p.index, p.offset, p.size, |o.content|, c) && p.size > 0
    ensures p.offset + p.size <= |o.content| && p.data == o.content[p.offset..p.offset + p.size]
  {
    hide Stored, PlacedAt, Inv, WholeRow, Fetched, Answers;
    var k :| Fetches(s, o.file, k, p);
    StoredRow(s, o, k);
    FetchIsSlice(s, o.file, k, p);
  }

  lemma RowWithIndex(o: Order, c: nat, i: nat) returns (k: nat)
    requires WellPlanned(o, c) && i < PartCount(|o.content|, c)
    ensures k in o.parts && o.parts[k].index == i
  {
    hide PlacedAt, PartCount;
    assert HasIndex(o, i);
    k :| k in o.parts && o.parts[k].index == i;
  }

  lemma EveryIndexDownloaded(s: State, o: Order, c: nat, parts: seq<Part>, i: nat)
    requires Stored(s, o) && WellPlanned(o, c) && Downloads(s, o.file, parts) && i < PartCount(|o.content|, c)
    requires OwnFile(o)
    ensures exists p :: p in parts && p.index == i
  {
    var k := RowWithIndex(o, c, i);
    hide *;
    StoredPart(s, o, k);
    GotPart(s, o.file, k, parts);
  }

  lemma GotPart(s: State, file: string, k: nat, parts: seq<Part>)
    requires Downloads(s, file, parts) && k in s.rows && s.rows[k].file == file && s.rows[k].status == Completed
    ensures exists p :: p in parts && p.index == s.rows[k].index
  {
    assert Gets(s, file, k, parts);
    hide Fetched, Answers;
    var p :| p in parts && Fetches(s, file, k, p);
  }

  lemma StoredPart(s: State, o: Order, k: nat)
    requires Stored(s, o) && k in o.parts && OwnFile(o)
    ensures k in s.rows && s.rows[k].file == o.file && s.rows[k].index == o.parts[k].index &&
            s.rows[k].status == Completed
  {
    hide Inv, WholeRows;
  }

  ghost predicate OwnFile(o: Order) {
    forall k :: k in o.parts ==> o.parts[k].file == o.file
  }

  lemma OrderOwnsFile(s: State, j: nat, o: Order)
    requires Fresh(s, j, o)
    ensures OwnFile(o)
  {
    assert forall k :: k in o.parts ==> FreshRow(j, o.file, o.content, o.parts[k]);
  }

  /** The download selects one part for each place, in order. */
  ghost predicate OneEach(tiles: seq<Part>, parts: seq<Part>, n: nat) {
    |tiles| == n && forall i :: 0 <= i < n ==> tiles[i] in parts && tiles[i].index == i
  }

  lemma FromDownloads(s: State, file: string, parts: seq<Part>, p: Part)
    requires Downloads(s, file, parts) && p in parts
    ensures FromRow(s, file, p)
  {
  }

  lemma InPlace(index: nat, offset: nat, size: nat, fileSize: nat, c: nat)
    requires c > 0 && PlacedAt(index, offset, size, fileSize, c)
    ensures index < PartCount(fileSize, c)
  {
  }

  lemma IndexesAre(s: State, o: Order, c: nat, parts: seq<Part>, i: nat)
    requires c > 0 && Stored(s, o) && WellPlanned(o, c) && Downloads(s, o.file, parts) && OwnFile(o)
    ensures i in FirstRows(parts) <==> i < PartCount(|o.content|, c)
  {
    hide *;
    FirstRowsAreRows(parts);
    if i in FirstRows(parts) {
      var p := FirstRows(parts)[i];
      FromDownloads(s, o.file, parts, p);
      DownloadedPart(s, o, c, parts, p);
      InPlace(p.index, p.offset, p.size, |o.content|, c);
    }
    if i < PartCount(|o.content|, c) {
      EveryIndexDownloaded(s, o, c, parts, i);
      var p :| p in parts && p.index == i;
      assert p.index in FirstRows(parts);
    }
  }

  lemma SelectedFrom(parts: seq<Part>, n: nat)
    requires forall i: nat :: i in FirstRows(parts) <==> i < n
    ensures OneEach(Selected(parts), parts, n)
  {
    FirstRowsAreRows(parts);
    SizeUpTo(FirstRows(parts), n);
    InOrderShape(FirstRows(parts), n);
    hide InOrder, FirstRows;
  }

  lemma SelectedIs(s: State, o: Order, c: nat, parts: seq<Part>)
    requires c > 0 && Stored(s, o) && WellPlanned(o, c) && Downloads(s, o.file, parts) && OwnFile(o)
    ensures OneEach(Selected(parts), parts, PartCount(|o.content|, c))
  {
    hide *;
    forall i: nat ensures i in FirstRows(parts) <==> i < PartCount(|o.content|, c) {
      IndexesAre(s, o, c, parts, i);
    }
    SelectedFrom(parts, PartCount(|o.content|, c));
  }

  /** From where a file's job starts, in any state a run can reach, to where the job is marked
      completed, whatever is done to other files meanwhile, and at any later time, whatever is
      done by then: when the job's own reads are whole, the parts a download selects tile the
      file. */
  lemma UploadedPartsTile(s0: State, j: nat, o: Order, c: nat, steps: seq<Step>, more: seq<Step>, parts: seq<Part>)
    requires Inv(s0) && Fresh(s0, j, o) && WellPlanned(o, c) && o.content != []
    requires Completes(Started(s0, j, o), j, steps) && WholeRun(Started(s0, j, o), steps, o.parts.Keys)
    requires var s := After(Started(s0, j, o), steps); IsRun(s, more) && Downloads(After(s, more), o.file, parts)
    ensures Tiles(Selected(parts), o.content)
  {
    var s := After(After(Started(s0, j, o), steps), more);
    OrderOwnsFile(s0, j, o);
    assert c > 0;
    hide *;
    RunStores(s0, j, o, steps);
    StoredStays(After(Started(s0, j, o), steps), o, more);
    SelectedIs(s, o, c, parts);
    forall p | p in parts ensures TileFits(p, c, o.content) {
      DownloadFits(s, o, c, parts, p);
    }
    FitsMakeTiles(Selected(parts), parts, c, o.content);
  }

  ghost predicate TileFits(p: Part, c: nat, file: seq<byte>)
    requires c > 0
  {
    var n := PartCount(|file|, c);
    && p.index < n && TileOf(p, p.index, file)
    && p.offset == p.index * c && p.offset + p.size == if p.index + 1 == n then |file| else (p.index + 1) * c
  }

  lemma PlacedFits(p: Part, c: nat, file: seq<byte>)
    requires c > 0 && PlacedAt(p.index, p.offset, p.size, |file|, c) && p.size > 0
    requires p.offset + p.size <= |file| && p.data == file[p.offset..p.offset + p.size]
    ensures TileFits(p, c, file)
  {
    PartSizeFits(|file|, c, p.index);
  }

  lemma DownloadFits(s: State, o: Order, c: nat, parts: seq<Part>, p: Part)
    requires c > 0 && Stored(s, o) && WellPlanned(o, c) && Downloads(s, o.file, parts) && p in parts
    ensures TileFits(p, c, o.content)
  {
    hide *;
    FromDownloads(s, o.file, parts, p);
    DownloadedPart(s, o, c, parts, p);
    PlacedFits(p, c, o.content);
  }

  lemma FitsMakeTiles(tiles: seq<Part>, parts: seq<Part>, c: nat, file: seq<byte>)
    requires c > 0 && OneEach(tiles, parts, PartCount(|file|, c)) && forall p :: p in parts ==> TileFits(p, c, file)
    ensures Tiles(tiles, file)
  {
    var n := PartCount(|file|, c);
    assert n > 0;
    hide PartCount;
    forall i | 0 <= i < n ensures tiles[i].index == i && TileFits(tiles[i], c, file) {
      assert tiles[i] in parts;
    }
    hide TileOf, OneEach;
    assert tiles[0].offset == 0;
  }

  /** So whatever its goroutines do, a full download has sent a prefix of the file that was
      uploaded, and a range request a prefix of the bytes asked for; each has sent all of it
      when it returns without an error; and when nothing fails each does return. */
  lemma UploadThenDownload(s0: State, j: nat, o: Order, c: nat, steps: seq<Step>, more: seq<Step>, parts: seq<Part>,
                           start: nat, end: nat, workers: nat, full: seq<OrderedWriter.Step>,
                           ranged: seq<OrderedWriter.Step>)
    requires Inv(s0) && Fresh(s0, j, o) && WellPlanned(o, c) && start <= end < |o.content| && workers > 0
    requires Completes(Started(s0, j, o), j, steps) && WholeRun(Started(s0, j, o), steps, o.parts.Keys)
    requires var s := After(Started(s0, j, o), steps); IsRun(s, more) && Downloads(After(s, more), o.file, parts)
    requires OrderedWriter.IsRun(FullJob(Selected(parts), |o.content|), OrderedWriter.Init(workers), full)
    requires OrderedWriter.IsRun(RangeRest(Selected(parts), start, end), OrderedWriter.Init(workers), ranged)
    ensures var job := FullJob(Selected(parts), |o.content|);
            var d := OrderedWriter.After(job, OrderedWriter.Init(workers), full);
            && d.out <= o.content
            && (d.writer == OrderedWriter.Returned(OrderedWriter.Success) ==> d.out == o.content)
            && (OrderedWriter.QuietEnd(job, OrderedWriter.Init(workers), full) ==>
                  d.writer == OrderedWriter.Returned(OrderedWriter.Success))
    ensures var job := RangeRest(Selected(parts), start, end);
            var d := OrderedWriter.After(job, OrderedWriter.Init(workers), ranged);
            var sent := RangeFirst(Selected(parts), start, end) + d.out;
            && sent <= o.content[start..end + 1]
            && (d.writer == OrderedWriter.Returned(OrderedWriter.Success) ==> sent == o.content[start..end + 1])
            && (OrderedWriter.QuietEnd(job, OrderedWriter.Init(workers), ranged) ==>
                  d.writer == OrderedWriter.Returned(OrderedWriter.Success))
  {
    UploadedPartsTile(s0, j, o, c, steps, more, parts);
    hide *;
    FullDelivers(Selected(parts), o.content, workers, full);
    RangeDelivers(Selected(parts), o.content, start, end, workers, ranged);
  }
}
