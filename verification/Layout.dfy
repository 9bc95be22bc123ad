/** How an upload is laid out: a file is cut into parts of a fixed size, every server gets
    all of them, and the parts of a server go round its channels from a random start. */
module Layout {
  import opened Bytes
  import opened Collections
  import opened OrderedWriter
  import opened Ranges

  datatype Planned = Planned(server: nat, index: nat, offset: nat, size: nat, channel: string)

  /** An empty file still has one part. */
  function PartCount(fileSize: nat, c: nat): nat
    requires c > 0
  {
    var n := (fileSize + c - 1) / c;
    if n == 0 then 1 else n
  }

  function PartSize(fileSize: nat, c: nat, i: nat): int {
    if i * c + c > fileSize then fileSize - i * c else c
  }

  function PlannedPart(fileSize: nat, c: nat, server: nat, channels: seq<string>, start: nat, i: nat): Planned
    requires c > 0 && channels != [] && i < PartCount(fileSize, c)
  {
    PartSizeFits(fileSize, c, i);
    Planned(server, i, i * c, PartSize(fileSize, c, i), channels[(start + i) % |channels|])
  }

  lemma CountBounds(fileSize: nat, c: nat)
    requires c > 0
    ensures var n := PartCount(fileSize, c); (n - 1) * c <= fileSize <= n * c && (n > 1 ==> (n - 1) * c < fileSize)
  {
    var q := (fileSize + c - 1) / c;
    assert q * c <= fileSize + c - 1 < q * c + c;
    if q > 0 {
      assert (q - 1) * c == q * c - c;
    }
  }

  lemma TimesMonotone(x: nat, y: nat, c: nat)
    requires x <= y
    ensures x * c <= y * c
  {
    assert y * c == x * c + (y - x) * c;
  }

  lemma PartSizeFits(fileSize: nat, c: nat, i: nat)
    requires c > 0 && i < PartCount(fileSize, c)
    ensures var size := PartSize(fileSize, c, i);
      && 0 <= size <= c && i * c + size <= fileSize
      && (size == 0 <==> fileSize == 0)
      && i * c + size == if i + 1 == PartCount(fileSize, c) then fileSize else (i + 1) * c
  {
    var n := PartCount(fileSize, c);
    CountBounds(fileSize, c);
    TimesMonotone(i, n - 1, c);
    assert (i + 1) * c == i * c + c;
    if i + 1 < n {
      TimesMonotone(i + 1, n - 1, c);
    }
  }

  /** The parts of one server. */
  function ServerPlan(fileSize: nat, c: nat, server: nat, channels: seq<string>, start: nat, n: nat): seq<Planned>
    requires c > 0 && channels != [] && n <= PartCount(fileSize, c)
  {
    if n == 0 then []
    else
      ServerPlan(fileSize, c, server, channels, start, n - 1)
      + [PlannedPart(fileSize, c, server, channels, start, n - 1)]
  }

  /** The parts of the first k servers; one without channels gets none. */
  function Plan(fileSize: nat, c: nat, servers: seq<seq<string>>, starts: seq<nat>, k: nat): seq<Planned>
    requires c > 0 && k <= |servers| == |starts|
  {
    if k == 0 then []
    else
      var before := Plan(fileSize, c, servers, starts, k - 1);
      if servers[k - 1] == [] then before
      else before + ServerPlan(fileSize, c, k - 1, servers[k - 1], starts[k - 1], PartCount(fileSize, c))
  }

  method BuildParts(fileSize: nat, c: nat, servers: seq<seq<string>>, starts: seq<nat>) returns (pending: seq<Planned>)
    requires c > 0 && |servers| == |starts|
    ensures pending == Plan(fileSize, c, servers, starts, |servers|)
  {
    var totalChunks := PartCount(fileSize, c);
    pending := [];
    for k := 0 to |servers|
      invariant pending == Plan(fileSize, c, servers, starts, k)
    {
      var channels := servers[k];
      if channels != [] {
        ghost var before := pending;
        assert before + [] == before;
        for i := 0 to totalChunks
          invariant pending == before + ServerPlan(fileSize, c, k, channels, starts[k], i)
        {
          var offset, size := i * c, c;
          if offset + size > fileSize {
            size := fileSize - offset;
          }
          PartSizeFits(fileSize, c, i);
          var part := Planned(k, i, offset, size, channels[(starts[k] + i) % |channels|]);
          PlusOne(before, ServerPlan(fileSize, c, k, channels, starts[k], i), part);
          pending := pending + [part];
        }
      }
    }
  }

  lemma PlusOne<T>(a: seq<T>, b: seq<T>, x: T)
    ensures a + (b + [x]) == (a + b) + [x]
  {
  }

  function TotalSize(plan: seq<Planned>): nat {
    if plan == [] then 0 else TotalSize(plan[..|plan| - 1]) + plan[|plan| - 1].size
  }

  function ServersUsed(servers: seq<seq<string>>, k: nat): nat
    requires k <= |servers|
  {
    if k == 0 then 0 else ServersUsed(servers, k - 1) + if servers[k - 1] == [] then 0 else 1
  }

  lemma {:induction false} ServerPlanAt(fileSize: nat, c: nat, server: nat, channels: seq<string>, start: nat, n: nat)
    requires c > 0 && channels != [] && n <= PartCount(fileSize, c)
    ensures var plan := ServerPlan(fileSize, c, server, channels, start, n);
      |plan| == n && forall i :: 0 <= i < n ==> plan[i] == PlannedPart(fileSize, c, server, channels, start, i)
  {
    if n > 0 {
      ServerPlanAt(fileSize, c, server, channels, start, n - 1);
    }
  }

  lemma {:induction false} ServerPlanSize(fileSize: nat, c: nat, server: nat, channels: seq<string>, start: nat, n: nat)
    requires c > 0 && channels != [] && n <= PartCount(fileSize, c)
    ensures TotalSize(ServerPlan(fileSize, c, server, channels, start, n))
      == if n == PartCount(fileSize, c) then fileSize else n * c
  {
    if n > 0 {
      ServerPlanSize(fileSize, c, server, channels, start, n - 1);
      PartSizeFits(fileSize, c, n - 1);
      var before, part := ServerPlan(fileSize, c, server, channels, start, n - 1),
        PlannedPart(fileSize, c, server, channels, start, n - 1);
      assert (before + [part])[..|before|] == before;
    }
  }

  lemma {:induction false} TotalSizeAppend(a: seq<Planned>, b: seq<Planned>)
    ensures TotalSize(a + b) == TotalSize(a) + TotalSize(b)
  {
    if b == [] {
      assert a + b == a;
    } else {
      var b' := b[..|b| - 1];
      assert (a + b)[..|a + b| - 1] == a + b';
      TotalSizeAppend(a, b');
    }
  }

  /** The job's totals: every server in use holds the whole file. */
  lemma {:induction false} PlanTotals(fileSize: nat, c: nat, servers: seq<seq<string>>, starts: seq<nat>, k: nat)
    requires c > 0 && k <= |servers| == |starts|
    ensures TotalSize(Plan(fileSize, c, servers, starts, k)) == fileSize * ServersUsed(servers, k)
    ensures |Plan(fileSize, c, servers, starts, k)| == PartCount(fileSize, c) * ServersUsed(servers, k)
    decreases k
  {
    if k > 0 {
      PlanTotals(fileSize, c, servers, starts, k - 1);
      PlanStep(fileSize, c, servers, starts, k);
      var used := ServersUsed(servers, k - 1);
      assert ServersUsed(servers, k) == used + if servers[k - 1] == [] then 0 else 1;
      hide *;
      TimesPlusOne(fileSize, used);
      TimesPlusOne(PartCount(fileSize, c), used);
    }
  }

  /** UploadFile keeps only servers that have channels, so the sizes of all rows sum to the
      job's TotalBytes and the rows number its TotalChunks. */
  lemma JobTotals(fileSize: nat, c: nat, servers: seq<seq<string>>, starts: seq<nat>)
    requires c > 0 && |servers| == |starts| && forall k :: 0 <= k < |servers| ==> servers[k] != []
    ensures TotalSize(Plan(fileSize, c, servers, starts, |servers|)) == fileSize * |servers|
    ensures |Plan(fileSize, c, servers, starts, |servers|)| == PartCount(fileSize, c) * |servers|
  {
    AllUsed(servers, |servers|);
    PlanTotals(fileSize, c, servers, starts, |servers|);
  }

  lemma {:induction false} AllUsed(servers: seq<seq<string>>, k: nat)
    requires k <= |servers| && forall i :: 0 <= i < |servers| ==> servers[i] != []
    ensures ServersUsed(servers, k) == k
  {
    if k > 0 {
      AllUsed(servers, k - 1);
    }
  }

  lemma PlanStep(fileSize: nat, c: nat, servers: seq<seq<string>>, starts: seq<nat>, k: nat)
    requires c > 0 && 0 < k <= |servers| == |starts|
    ensures var before, after := Plan(fileSize, c, servers, starts, k - 1), Plan(fileSize, c, servers, starts, k);
      if servers[k - 1] == [] then after == before
      else TotalSize(after) == TotalSize(before) + fileSize && |after| == |before| + PartCount(fileSize, c)
  {
    if servers[k - 1] != [] {
      var n, before := PartCount(fileSize, c), Plan(fileSize, c, servers, starts, k - 1);
      var part := ServerPlan(fileSize, c, k - 1, servers[k - 1], starts[k - 1], n);
      PlanIs(fileSize, c, servers, starts, k);
      hide *;
      ServerPlanSize(fileSize, c, k - 1, servers[k - 1], starts[k - 1], n);
      ServerPlanAt(fileSize, c, k - 1, servers[k - 1], starts[k - 1], n);
      TotalSizeAppend(before, part);
    } else {
      PlanIs(fileSize, c, servers, starts, k);
    }
  }

  lemma PlanIs(fileSize: nat, c: nat, servers: seq<seq<string>>, starts: seq<nat>, k: nat)
    requires c > 0 && 0 < k <= |servers| == |starts|
    ensures var before := Plan(fileSize, c, servers, starts, k - 1);
      Plan(fileSize, c, servers, starts, k)
      == if servers[k - 1] == [] then before
         else before + ServerPlan(fileSize, c, k - 1, servers[k - 1], starts[k - 1], PartCount(fileSize, c))
  {
    hide ServerPlan, PartCount;
  }

  lemma TimesPlusOne(x: nat, k: nat)
    ensures x * (k + 1) == x * k + x
  {
  }

  /** The parts of one server with the bytes they are read from. */
  function PartsOf(file: seq<byte>, c: nat): seq<Part>
    requires c > 0
  {
    seq(PartCount(|file|, c), i requires 0 <= i < PartCount(|file|, c) =>
      PartSizeFits(|file|, c, i);
      Part(i, i * c, PartSize(|file|, c, i), file[i * c..i * c + PartSize(|file|, c, i)]))
  }

  /** The parts of a file that is not empty tile it: no gap, no overlap, none empty. */
  lemma PartsTile(file: seq<byte>, c: nat)
    requires c > 0 && file != []
    ensures Tiles(PartsOf(file, c), file)
  {
    var parts, n := PartsOf(file, c), PartCount(|file|, c);
    forall i | 0 <= i < n
      ensures TileOf(parts[i], i, file)
      ensures parts[i].offset + parts[i].size == if i + 1 == n then |file| else (i + 1) * c
    {
      PartSizeFits(|file|, c, i);
    }
  }

  // ----- rotation -----

  /** How many of the first n parts go to channel j of m. */
  function PartsOnChannel(start: nat, n: nat, m: nat, j: nat): nat
    requires m > 0
  {
    if n == 0 then 0 else PartsOnChannel(start, n - 1, m, j) + if (start + n - 1) % m == j then 1 else 0
  }

  /** Channel j's turn comes first after this many parts. */
  function FirstTurn(start: nat, m: nat, j: nat): nat
    requires m > 0
  {
    (j + m - start % m) % m
  }

  lemma DivMod(n: nat, m: nat)
    requires m > 0
    ensures n == n / m * m + n % m && n % m < m
  {
  }

  lemma ModIs(n: nat, m: nat, q: nat, r: nat)
    requires r < m && n == q * m + r
    ensures n / m == q && n % m == r
  {
    QuotientIs(n, m, q);
  }

  lemma NextDivMod(n: nat, m: nat)
    requires m > 0
    ensures if n % m + 1 < m then (n + 1) / m == n / m && (n + 1) % m == n % m + 1
      else (n + 1) / m == n / m + 1 && (n + 1) % m == 0
  {
    DivMod(n, m);
    var q, r := n / m, n % m;
    if r + 1 < m {
      ModIs(n + 1, m, q, r + 1);
    } else {
      assert (q + 1) * m == q * m + m;
      ModIs(n + 1, m, q + 1, 0);
    }
  }

  lemma WrapMod(x: nat, m: nat)
    requires m > 0 && x < 2 * m
    ensures x % m == if x < m then x else x - m
  {
    if x < m {
      ModIs(x, m, 0, x);
    } else {
      ModIs(x, m, 1, x - m);
    }
  }

  lemma Distribute(x: int, y: int, z: int, m: int)
    ensures (x + y + z) * m == x * m + y * m + z * m
  {
  }

  lemma ModOfParts(p: nat, r1: nat, q: nat, r2: nat, t: nat, r: nat, m: nat)
    requires r < m && r1 + r2 == t * m + r
    ensures ((p * m + r1) + (q * m + r2)) % m == r
  {
    Distribute(p, q, t, m);
    ModIs((p * m + r1) + (q * m + r2), m, p + q + t, r);
  }

  lemma ModOfSum(a: nat, b: nat, m: nat)
    requires m > 0
    ensures (a + b) % m == (a % m + b % m) % m
  {
    DivMod(a, m);
    DivMod(b, m);
    DivMod(a % m + b % m, m);
    var p, r1, q, r2 := a / m, a % m, b / m, b % m;
    var t, r := (r1 + r2) / m, (r1 + r2) % m;
    assert a + b == (p * m + r1) + (q * m + r2);
    ModOfParts(p, r1, q, r2, t, r, m);
  }

  lemma TurnOf(start: nat, m: nat, j: nat, i: nat)
    requires j < m
    ensures (start + i) % m == j <==> i % m == FirstTurn(start, m, j)
  {
    ModOfSum(start, i, m);
    DivMod(start, m);
    DivMod(i, m);
    WrapMod(start % m + i % m, m);
    WrapMod(j + m - start % m, m);
  }

  lemma {:induction false} CountOnChannel(start: nat, n: nat, m: nat, j: nat)
    requires j < m
    ensures PartsOnChannel(start, n, m, j) == n / m + if FirstTurn(start, m, j) < n % m then 1 else 0
  {
    if n > 0 {
      CountOnChannel(start, n - 1, m, j);
      TurnOf(start, m, j, n - 1);
      NextDivMod(n - 1, m);
      DivMod(n - 1, m);
      FirstTurnInRange(start, m, j);
      hide FirstTurn;
    } else {
      ModIs(0, m, 0, 0);
    }
  }

  lemma FirstTurnInRange(start: nat, m: nat, j: nat)
    requires m > 0
    ensures FirstTurn(start, m, j) < m
  {
    DivMod(start, m);
    DivMod(j + m - start % m, m);
  }

  /** How many parts of a plan go to a channel of a server. */
  function PartsFor(plan: seq<Planned>, server: nat, channel: string): nat {
    if plan == [] then 0
    else
      var p := plan[|plan| - 1];
      PartsFor(plan[..|plan| - 1], server, channel) + if p.server == server && p.channel == channel then 1 else 0
  }

  lemma PartsForSnoc(plan: seq<Planned>, p: Planned, server: nat, channel: string)
    ensures PartsFor(plan + [p], server, channel)
      == PartsFor(plan, server, channel) + if p.server == server && p.channel == channel then 1 else 0
  {
    assert (plan + [p])[..|plan|] == plan;
  }

  lemma {:induction false} PartsForSum(a: seq<Planned>, b: seq<Planned>, server: nat, channel: string)
    ensures PartsFor(a + b, server, channel) == PartsFor(a, server, channel) + PartsFor(b, server, channel)
  {
    if b == [] {
      assert a + b == a;
    } else {
      var front, p := b[..|b| - 1], b[|b| - 1];
      PartsForSum(a, front, server, channel);
      PartsForSnoc(a + front, p, server, channel);
      assert a + b == (a + front) + [p];
    }
  }

  /** The channels that the plan of a server names are those of the rotation. */
  lemma {:induction false} ServerPartsFor(fileSize: nat, c: nat, server: nat, channels: seq<string>, start: nat,
                                          n: nat, j: nat)
    requires c > 0 && NoDuplicates(channels) && j < |channels| && n <= PartCount(fileSize, c)
    ensures PartsFor(ServerPlan(fileSize, c, server, channels, start, n), server, channels[j])
      == PartsOnChannel(start, n, |channels|, j)
  {
    if n > 0 {
      hide PartsFor, NoDuplicates;
      ServerPartsFor(fileSize, c, server, channels, start, n - 1, j);
      var before, p := ServerPlan(fileSize, c, server, channels, start, n - 1),
        PlannedPart(fileSize, c, server, channels, start, n - 1);
      PartsForSnoc(before, p, server, channels[j]);
      SameChannel(channels, start + n - 1, j);
    }
  }

  lemma SameChannel(channels: seq<string>, turn: nat, j: nat)
    requires NoDuplicates(channels) && j < |channels|
    ensures turn % |channels| < |channels| && (channels[turn % |channels|] == channels[j] <==> turn % |channels| == j)
  {
    DivMod(turn, |channels|);
  }

  lemma {:induction false} OtherServerParts(fileSize: nat, c: nat, server: nat, channels: seq<string>, start: nat,
                                            n: nat, other: nat, channel: string)
    requires c > 0 && channels != [] && n <= PartCount(fileSize, c) && other != server
    ensures PartsFor(ServerPlan(fileSize, c, server, channels, start, n), other, channel) == 0
  {
    if n > 0 {
      hide PartsFor;
      OtherServerParts(fileSize, c, server, channels, start, n - 1, other, channel);
      var before, p := ServerPlan(fileSize, c, server, channels, start, n - 1),
        PlannedPart(fileSize, c, server, channels, start, n - 1);
      PartsForSnoc(before, p, other, channel);
    } else {
      assert ServerPlan(fileSize, c, server, channels, start, 0) == [];
    }
  }

  /** In the whole plan a channel gets the parts that the rotation of its server gives it. */
  lemma {:induction false} PlanPartsFor(fileSize: nat, c: nat, servers: seq<seq<string>>, starts: seq<nat>, k: nat,
                                        server: nat, j: nat)
    requires c > 0 && k <= |servers| == |starts| && server < |servers|
    requires NoDuplicates(servers[server]) && j < |servers[server]|
    ensures PartsFor(Plan(fileSize, c, servers, starts, k), server, servers[server][j])
      == if server < k then PartsOnChannel(starts[server], PartCount(fileSize, c), |servers[server]|, j) else 0
  {
    hide *;
    if k == 0 {
      NothingPlanned(fileSize, c, servers, starts, server, servers[server][j]);
    } else {
      var n, channel := PartCount(fileSize, c), servers[server][j];
      PlanPartsFor(fileSize, c, servers, starts, k - 1, server, j);
      PlanIs(fileSize, c, servers, starts, k);
      if servers[k - 1] != [] {
        var more := ServerPlan(fileSize, c, k - 1, servers[k - 1], starts[k - 1], n);
        PartsForSum(Plan(fileSize, c, servers, starts, k - 1), more, server, channel);
        if server == k - 1 {
          ServerPartsFor(fileSize, c, server, servers[server], starts[server], n, j);
        } else {
          OtherServerParts(fileSize, c, k - 1, servers[k - 1], starts[k - 1], n, server, channel);
        }
      }
    }
  }

  lemma NothingPlanned(fileSize: nat, c: nat, servers: seq<seq<string>>, starts: seq<nat>, server: nat, channel: string)
    requires c > 0 && |servers| == |starts|
    ensures PartsFor(Plan(fileSize, c, servers, starts, 0), server, channel) == 0
  {
  }

  /** Whatever the random start, two channels of a server get part counts that differ by
      at most one. */
  lemma RotationIsFair(fileSize: nat, c: nat, servers: seq<seq<string>>, starts: seq<nat>, server: nat, j: nat, k: nat)
    requires c > 0 && |servers| == |starts| && server < |servers| && NoDuplicates(servers[server])
    requires j < |servers[server]| && k < |servers[server]|
    ensures var plan, channels := Plan(fileSize, c, servers, starts, |servers|), servers[server];
      -1 <= PartsFor(plan, server, channels[j]) - PartsFor(plan, server, channels[k]) <= 1
  {
    hide *;
    PlanPartsFor(fileSize, c, servers, starts, |servers|, server, j);
    PlanPartsFor(fileSize, c, servers, starts, |servers|, server, k);
    TurnsAreFair(starts[server], PartCount(fileSize, c), |servers[server]|, j, k);
  }

  lemma TurnsAreFair(start: nat, n: nat, m: nat, j: nat, k: nat)
    requires j < m && k < m
    ensures -1 <= PartsOnChannel(start, n, m, j) - PartsOnChannel(start, n, m, k) <= 1
  {
    CountOnChannel(start, n, m, j);
    CountOnChannel(start, n, m, k);
  }
}
