/** Runs of the upload engine that end where one would not want them to: a part stored short,
    an empty file that is never read back, a completed job that is marked as paused, and two
    files that share one message. */
module SampleRuns {
  import opened Wrappers
  import opened Bytes
  import opened Upload
  import opened Recovery

  // ----- one file of one part -----

  function OneRow(content: seq<byte>): Row {
    Row(7, "a", 0, 0, |content|, NoSum, Nowhere, NoUrl, Pending)
  }

  /** The row once n bytes have been read and stored for it. */
  function OneDone(content: seq<byte>, n: nat): Row
    requires n <= |content|
  {
    OneRow(content).(sha := Sha256(content[..n]), place := Message(0), url := LinkTo(0), status := Completed)
  }

  function OneOrder(content: seq<byte>): Order {
    Order("a", content, map[0 := OneRow(content)], [0], 1)
  }

  function OneSteps(content: seq<byte>, n: nat): (steps: seq<Step>)
    ensures |steps| == 7
  {
    [Start(7, OneOrder(content)), Work(7, 0, Take), Work(7, 0, LookUp(n, None)), Work(7, 0, Send(0)),
     Work(7, 0, Record), Work(7, 0, Leave), Finish(7, true, true)]
  }

  function OneStore(content: seq<byte>, n: nat): map<nat, Blob>
    requires n <= |content|
  {
    map[0 := Sealed(Aad("a", 0), content[..n])]
  }

  function OneJob(queue: seq<nat>, w: Worker, running: bool, status: JobStatus): Job {
    Job({0}, 1, queue, [w], 0, false, running, status)
  }

  function One(content: seq<byte>, row: Row, store: map<nat, Blob>, job: Job): State {
    State(map["a" := content], map[0 := row], store, map[7 := job])
  }

  /** A read of all bytes, or of some of them. */
  predicate Readable(content: seq<byte>, n: nat) {
    n == |content| || 0 < n < |content|
  }

  lemma OneStart(content: seq<byte>, step: Step)
    requires step == Start(7, OneOrder(content))
    ensures Enabled(EMPTY, step) &&
            Do(EMPTY, step) == One(content, OneRow(content), map[], OneJob([0], Idle, true, Active))
  {
    var o := OneOrder(content);
    var t := Started(EMPTY, 7, o);
    assert o.parts.Keys == {0};
    assert Pool(1) == [Idle];
    assert t.rows == map[0 := OneRow(content)];
    assert t.jobs == map[7 := OneJob([0], Idle, true, Active)];
  }

  lemma OneTake(content: seq<byte>, step: Step)
    requires step == Work(7, 0, Take)
    ensures var s := One(content, OneRow(content), map[], OneJob([0], Idle, true, Active));
            Enabled(s, step) &&
              Do(s, step) == One(content, OneRow(content), map[], OneJob([], Reading(0), true, Active))
  {
    var t := Do(One(content, OneRow(content), map[], OneJob([0], Idle, true, Active)), step);
    assert t.jobs[7].workers == [Reading(0)] && t.jobs[7].queue == [];
    assert t.jobs == map[7 := OneJob([], Reading(0), true, Active)];
  }

  lemma OneLookUp(content: seq<byte>, n: nat, step: Step)
    requires Readable(content, n) && step == Work(7, 0, LookUp(n, None))
    ensures var s := One(content, OneRow(content), map[], OneJob([], Reading(0), true, Active));
            Enabled(s, step) &&
              Do(s, step) == One(content, OneRow(content), map[], OneJob([], Sealing(0, n), true, Active))
  {
    var t := Do(One(content, OneRow(content), map[], OneJob([], Reading(0), true, Active)), step);
    assert t.jobs[7].workers == [Sealing(0, n)];
    assert t.jobs == map[7 := OneJob([], Sealing(0, n), true, Active)];
  }

  lemma OneData(s: State, content: seq<byte>, n: nat)
    requires n <= |content| && "a" in s.files && s.files["a"] == content
    ensures Data(s, OneRow(content), n) == content[..n]
  {
    assert content[0..|content|] == content;
  }

  lemma OneSend(content: seq<byte>, n: nat, step: Step)
    requires n <= |content| && step == Work(7, 0, Send(0))
    ensures var s := One(content, OneRow(content), map[], OneJob([], Sealing(0, n), true, Active));
            && Enabled(s, step)
            && Do(s, step) == One(content, OneRow(content), OneStore(content, n),
                                  OneJob([], Storing(0, n, 0), true, Active))
  {
    var s := One(content, OneRow(content), map[], OneJob([], Sealing(0, n), true, Active));
    var t := Do(s, step);
    OneData(s, content, n);
    assert t.jobs[7].workers == [Storing(0, n, 0)];
    assert t.jobs == map[7 := OneJob([], Storing(0, n, 0), true, Active)];
  }

  lemma OneRecord(content: seq<byte>, n: nat, step: Step)
    requires n <= |content| && step == Work(7, 0, Record)
    ensures var s := One(content, OneRow(content), OneStore(content, n), OneJob([], Storing(0, n, 0), true, Active));
            && Enabled(s, step)
            && Do(s, step) == One(content, OneDone(content, n), OneStore(content, n), OneJob([], Idle, true, Active))
  {
    var s := One(content, OneRow(content), OneStore(content, n), OneJob([], Storing(0, n, 0), true, Active));
    var t := Do(s, step);
    OneData(s, content, n);
    assert t.jobs[7].workers == [Idle];
    assert t.jobs == map[7 := OneJob([], Idle, true, Active)];
  }

  lemma OneLeave(content: seq<byte>, n: nat, step: Step)
    requires n <= |content| && step == Work(7, 0, Leave)
    ensures var s := One(content, OneDone(content, n), OneStore(content, n), OneJob([], Idle, true, Active));
            && Enabled(s, step)
            && Do(s, step) == One(content, OneDone(content, n), OneStore(content, n), OneJob([], Exited, true, Active))
  {
    var t := Do(One(content, OneDone(content, n), OneStore(content, n), OneJob([], Idle, true, Active)), step);
    assert t.jobs[7].workers == [Exited];
    assert t.jobs == map[7 := OneJob([], Exited, true, Active)];
  }

  lemma OneFinish(content: seq<byte>, n: nat, step: Step)
    requires n <= |content| && step == Finish(7, true, true)
    ensures var s := One(content, OneDone(content, n), OneStore(content, n), OneJob([], Exited, true, Active));
            Enabled(s, step) && Do(s, step) == OneEnd(content, n)
  {
    var s := One(content, OneDone(content, n), OneStore(content, n), OneJob([], Exited, true, Active));
    var t := Do(s, step);
    assert WithStatus(s, {0}, Completed) == {0};
    assert t.jobs == map[7 := OneJob([], Exited, false, JobCompleted)];
  }

  function OneEnd(content: seq<byte>, n: nat): State
    requires n <= |content|
  {
    One(content, OneDone(content, n), OneStore(content, n), OneJob([], Exited, false, JobCompleted))
  }

  lemma RunTail(s: State, steps: seq<Step>, i: nat)
    requires i < |steps| && Enabled(s, steps[i]) && IsRun(Do(s, steps[i]), steps[i + 1..])
    ensures IsRun(s, steps[i..]) && After(s, steps[i..]) == After(Do(s, steps[i]), steps[i + 1..])
  {
    assert steps[i..][1..] == steps[i + 1..];
  }

  lemma RunNone(s: State, steps: seq<Step>)
    requires steps == []
    ensures IsRun(s, steps) && After(s, steps) == s
  {
  }

  lemma OneRuns(content: seq<byte>, n: nat)
    requires Readable(content, n)
    ensures n <= |content| && IsRun(EMPTY, OneSteps(content, n)) &&
            After(EMPTY, OneSteps(content, n)) == OneEnd(content, n)
  {
    hide *;
    OneStepsAre(content, n);
    var steps, row, done, store := OneSteps(content, n), OneRow(content), OneDone(content, n), OneStore(content, n);
    OneStart(content, steps[0]);
    OneTake(content, steps[1]);
    OneLookUp(content, n, steps[2]);
    OneSend(content, n, steps[3]);
    OneRecord(content, n, steps[4]);
    OneLeave(content, n, steps[5]);
    OneFinish(content, n, steps[6]);
    RunNone(OneEnd(content, n), steps[7..]);
    RunTail(One(content, done, store, OneJob([], Exited, true, Active)), steps, 6);
    RunTail(One(content, done, store, OneJob([], Idle, true, Active)), steps, 5);
    RunTail(One(content, row, store, OneJob([], Storing(0, n, 0), true, Active)), steps, 4);
    RunTail(One(content, row, map[], OneJob([], Sealing(0, n), true, Active)), steps, 3);
    RunTail(One(content, row, map[], OneJob([], Reading(0), true, Active)), steps, 2);
    RunTail(One(content, row, map[], OneJob([0], Idle, true, Active)), steps, 1);
    RunTail(EMPTY, steps, 0);
    assert steps[0..] == steps;
  }

  lemma OneStepsAre(content: seq<byte>, n: nat)
    requires Readable(content, n)
    ensures n <= |content|
    ensures var steps := OneSteps(content, n);
            && steps[0] == Start(7, OneOrder(content)) && steps[1] == Work(7, 0, Take)
            && steps[2] == Work(7, 0, LookUp(n, None)) && steps[3] == Work(7, 0, Send(0))
            && steps[4] == Work(7, 0, Record) && steps[5] == Work(7, 0, Leave) && steps[6] == Finish(7, true, true)
  {
  }

  /** A read that fails after some but not all bytes: the part is stored short, and its job
      is marked completed. */
  lemma TornReadIsCompleted(content: seq<byte>, n: nat)
    requires 0 < n < |content|
    ensures IsRun(EMPTY, OneSteps(content, n))
    ensures var s := After(EMPTY, OneSteps(content, n));
            && 7 in s.jobs && s.jobs[7].status == JobCompleted
            && 0 in s.rows && s.rows[0].status == Completed && s.rows[0].sha == Sha256(content[..n])
            && Plain(s, s.rows[0]) == content
  {
    OneRuns(content, n);
    assert content[0..|content|] == content;
  }

  /** A file of no bytes is marked completed, and its one row can never be fetched. */
  lemma EmptyFileIsLocked(fileID: string, origs: seq<Row>, linkUp: bool, messageUp: bool)
    requires linkUp || messageUp
    ensures IsRun(EMPTY, OneSteps([], 0))
    ensures var s := After(EMPTY, OneSteps([], 0));
            && s.files == map["a" := []] && 7 in s.jobs && s.jobs[7].status == JobCompleted
            && 0 in s.rows && s.rows[0].file == "a" && s.rows[0].status == Completed
            && (Answers(s, s.rows[0].sha, origs) ==>
                  Fetched(s.store, fileID, s.rows[0], origs, linkUp, messageUp) == Err(Locked))
  {
    OneRuns([], 0);
    var s := OneEnd([], 0);
    hide IsRun, After, Fetched, Answers, OneSteps;
    if Answers(s, s.rows[0].sha, origs) {
      StoredPartOpens(OneSteps([], 0), 0, fileID, origs, linkUp, messageUp);
    }
  }

  lemma {:induction false} RunAppend(s: State, a: seq<Step>, b: seq<Step>)
    requires IsRun(s, a) && IsRun(After(s, a), b)
    ensures IsRun(s, a + b) && After(s, a + b) == After(After(s, a), b)
    decreases |a|
  {
    hide Enabled, Do;
    if a == [] {
      assert a + b == b;
    } else {
      assert (a + b)[1..] == a[1..] + b;
      RunAppend(Do(s, a[0]), a[1..], b);
    }
  }

  /** A job that has been marked completed, with its part stored, is marked as paused by a later
      request to cancel it. */
  lemma CompletedIsPaused(content: seq<byte>)
    ensures IsRun(EMPTY, OneSteps(content, |content|))
    ensures IsRun(EMPTY, OneSteps(content, |content|) + [Cancel(7, true)])
    ensures var s, t := After(EMPTY, OneSteps(content, |content|)),
                        After(EMPTY, OneSteps(content, |content|) + [Cancel(7, true)]);
            && 7 in s.jobs && s.jobs[7].status == JobCompleted && 7 in t.jobs && t.jobs[7].status == JobPaused
            && t.jobs[7].rows == {0} && 0 in t.rows && t.rows[0].status == Completed && t.rows == s.rows
  {
    var steps := OneSteps(content, |content|);
    OneRuns(content, |content|);
    CancelEnd(content);
    hide OneSteps, Enabled, Do;
    RunAppend(EMPTY, steps, [Cancel(7, true)]);
  }

  lemma CancelEnd(content: seq<byte>)
    ensures var s, run := OneEnd(content, |content|), [Cancel(7, true)];
            && IsRun(s, run) && 7 in After(s, run).jobs && After(s, run).jobs[7].status == JobPaused
            && After(s, run).jobs[7].rows == {0} && After(s, run).rows == s.rows
  {
    var s, run := OneEnd(content, |content|), [Cancel(7, true)];
    assert run[1..] == [];
    assert IsRun(Do(s, run[0]), []);
  }

  // ----- two files, one message -----

  const SECOND_ROW := Row(8, "b", 0, 0, 1, NoSum, Nowhere, NoUrl, Pending)
  const SECOND_DONE := SECOND_ROW.(sha := Sha256([1]), place := Message(0), url := LinkTo(0), status := Completed)
  const SECOND_STEPS :=
    [Start(8, Order("b", [1], map[1 := SECOND_ROW], [1], 1)), Work(8, 0, Take), Work(8, 0, LookUp(1, Some(0))),
     Work(8, 0, Reuse)]

  /** The end of the first upload, with the second one under way. */
  function Two(row: Row, queue: seq<nat>, w: Worker): State {
    var s := OneEnd([1], 1);
    State(s.files["b" := [1]], s.rows[1 := row], s.store, s.jobs[8 := Job({1}, 1, queue, [w], 0, false, true, Active)])
  }

  lemma SecondStart()
    ensures Enabled(OneEnd([1], 1), SECOND_STEPS[0]) &&
            Do(OneEnd([1], 1), SECOND_STEPS[0]) == Two(SECOND_ROW, [1], Idle)
  {
    var s, o := OneEnd([1], 1), SECOND_STEPS[0].order;
    assert o.parts.Keys == {1};
    assert Pool(1) == [Idle];
    assert s.rows + o.parts == s.rows[1 := SECOND_ROW];
  }

  lemma SecondTake()
    ensures Enabled(Two(SECOND_ROW, [1], Idle), SECOND_STEPS[1])
    ensures Do(Two(SECOND_ROW, [1], Idle), SECOND_STEPS[1]) == Two(SECOND_ROW, [], Reading(1))
  {
    var t := Do(Two(SECOND_ROW, [1], Idle), SECOND_STEPS[1]);
    assert t.jobs[8].workers == [Reading(1)] && t.jobs[8].queue == [];
    assert t.jobs == Two(SECOND_ROW, [], Reading(1)).jobs;
  }

  lemma SecondData(s: State)
    requires "b" in s.files && s.files["b"] == [1]
    ensures Data(s, SECOND_ROW, 1) == [1]
  {
    assert [1][0..1] == [1] && [1][..1] == [1];
  }

  lemma FirstDone()
    ensures OneDone([1], 1) == Row(7, "a", 0, 0, 1, Sha256([1]), Message(0), LinkTo(0), Completed)
  {
    assert [1][..1] == [1];
  }

  lemma SecondLookUp()
    ensures var s := Two(SECOND_ROW, [], Reading(1));
            && Enabled(s, SECOND_STEPS[2])
            && Do(s, SECOND_STEPS[2]) == Two(SECOND_ROW, [], Reusing(1, 1, OneDone([1], 1)))
  {
    var s := Two(SECOND_ROW, [], Reading(1));
    SecondData(s);
    FirstDone();
    hide OneDone, Data;
    assert Enabled(s, SECOND_STEPS[2]);
    var t := Do(s, SECOND_STEPS[2]);
    assert t.jobs[8].workers == [Reusing(1, 1, OneDone([1], 1))];
    assert t.jobs == Two(SECOND_ROW, [], Reusing(1, 1, OneDone([1], 1))).jobs;
  }

  lemma SecondReuse()
    ensures var s := Two(SECOND_ROW, [], Reusing(1, 1, OneDone([1], 1)));
            Enabled(s, SECOND_STEPS[3]) && Do(s, SECOND_STEPS[3]) == Two(SECOND_DONE, [], Idle)
  {
    var s := Two(SECOND_ROW, [], Reusing(1, 1, OneDone([1], 1)));
    var t := Do(s, SECOND_STEPS[3]);
    SecondData(s);
    FirstDone();
    hide OneDone, Data;
    assert t.jobs[8].workers == [Idle];
    assert t.jobs == Two(SECOND_DONE, [], Idle).jobs;
    assert t.rows == Two(SECOND_DONE, [], Idle).rows;
  }

  lemma TwoRun()
    ensures IsRun(EMPTY, OneSteps([1], 1) + SECOND_STEPS)
    ensures After(EMPTY, OneSteps([1], 1) + SECOND_STEPS) == Two(SECOND_DONE, [], Idle)
  {
    hide *;
    SecondStepsAre();
    OneRuns([1], 1);
    SecondStart();
    SecondTake();
    SecondLookUp();
    SecondReuse();
    RunNone(Two(SECOND_DONE, [], Idle), SECOND_STEPS[4..]);
    RunTail(Two(SECOND_ROW, [], Reusing(1, 1, OneDone([1], 1))), SECOND_STEPS, 3);
    RunTail(Two(SECOND_ROW, [], Reading(1)), SECOND_STEPS, 2);
    RunTail(Two(SECOND_ROW, [1], Idle), SECOND_STEPS, 1);
    RunTail(OneEnd([1], 1), SECOND_STEPS, 0);
    RunAppend(EMPTY, OneSteps([1], 1), SECOND_STEPS);
  }

  lemma SecondStepsAre()
    ensures Readable([1], 1) && |SECOND_STEPS| == 4 && SECOND_STEPS[0..] == SECOND_STEPS && SECOND_STEPS[4..] == []
  {
  }

  /** Two files with the same byte: the second is stored as a reference to the first one's
      message, and can be read until the first file is deleted. */
  lemma DeleteTakesShared(origs: seq<Row>, left: seq<Row>, linkUp: bool, messageUp: bool)
    requires linkUp || messageUp
    ensures IsRun(EMPTY, OneSteps([1], 1) + SECOND_STEPS)
    ensures var s := After(EMPTY, OneSteps([1], 1) + SECOND_STEPS);
            && 1 in s.rows && s.rows[1] == SECOND_DONE && HangsOn(s, "a", 0)
            && (Answers(s, SECOND_DONE.sha, origs) ==>
                  Fetched(s.store, "b", SECOND_DONE, origs, linkUp, messageUp) == Ok([1]))
            && (Answers(Deleted(s, "a"), SECOND_DONE.sha, left) ==>
                  Fetched(Deleted(s, "a").store, "b", SECOND_DONE, left, linkUp, messageUp) == Err(Unavailable))
  {
    TwoRun();
    var steps := OneSteps([1], 1) + SECOND_STEPS;
    var s := Two(SECOND_DONE, [], Idle);
    assert s.rows[0].place == Message(0) && s.rows[0].file == "a";
    hide IsRun, After, Fetched, Answers, OneSteps, Deleted;
    if Answers(s, SECOND_DONE.sha, origs) {
      StoredPartOpens(steps, 1, "b", origs, linkUp, messageUp);
    }
    if Answers(Deleted(s, "a"), SECOND_DONE.sha, left) {
      DeleteSpares(steps, "a", 1, "b", left, linkUp, messageUp);
    }
  }
}
