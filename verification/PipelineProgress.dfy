/** Progress of the worker: each of its steps lowers a well-founded rank that nobody else's steps move, so between
    crashes every claimed job is settled (or escapes even containment) after finitely many steps. */
module PipelineProgress {
  import opened Wrappers
  import opened LocalJobs
  import opened DocumentPipeline
  import opened PipelineSafety
  import opened PipelineFrames
  import opened PipelineJobs
  import opened PipelineTheorems
  import opened PipelineRegions
  import A = ArtifactIndex

  function RankOf(w: World): Rank {
    match w.worker
    case Down => Rank(0, 0)
    case Idle => Rank(0, 0)
    case Contained(_) => Rank(1, 0)
    case CatchWrite(_, _) => Rank(2, 0)
    case Catching(_, _) => Rank(3, 0)
    case Ending(_, _, _, _) => Rank(4, 0)
    case InRegion(_, d) => if d in w.regions then RegionRank(w, d, w.regions[d]) else Rank(0, 0)
    case CallIndex(_, _) => Rank(22, 0)
    case AttachPrepared(_, _, _) => Rank(23, 0)
    case AttachReady(_, _) => Rank(24, 0)
    case ResetGate(_, _, _) => Rank(24, 0)
    case AfterPrepare(_, _, _) => Rank(25, 0)
    case CallPrepare(_, _) => Rank(33, 0)
    case Deciding(_, _, _, _) => Rank(34, 0)
    case Fetching(_, _) => Rank(35, 0)
    case Taken(_, _) => Rank(36, 0)
  }

  predicate WorkerStep(w: World, s: Step) {
    s.Work? || s.WorkPrepare? || s.WorkIndex?
    || (s.Region? && s.d in w.regions && RegionJob(w.regions[s.d]).Some?)
  }

  predicate Lifecycle(s: Step) {
    s.Start? || s.Stop? || s.Claim? || s.Crash?
  }

  // ---------- the worker's steps lower its rank ----------

  lemma WorkAdvances(w: World, ok: bool)
    requires Outside(w.worker)
    ensures Below(RankOf(if ok then WorkNext(w) else WorkThrow(w)), RankOf(w))
  {
  }

  /** Where the worker is after a step in its region: still there, or past it. */
  ghost predicate PastRegion(w: World, v: World, d: DocId)
    requires d in w.regions
  {
    && (d in v.regions ==> v.worker == w.worker)
    && (d !in v.regions ==> !v.worker.InRegion? && RankOf(v).phase < RegionRank(w, d, w.regions[d]).phase)
  }

  lemma Leaves(w: World, d: DocId, act: Act, j: JobId)
    requires ActAllowed(w, d, act) && RegionJob(w.regions[d]) == Some(j) && w.worker == InRegion(j, d)
    ensures PastRegion(w, RegionNext(w, d, act), d)
  {
    RegionFrame(w, d, act);
    hide RegionNext, LoopRank;
  }

  lemma RegionsWorker(w: World, d: DocId, j: JobId)
    requires Inv(w) && d in w.regions && RegionJob(w.regions[d]) == Some(j)
    ensures w.worker == InRegion(j, d)
  {
    assert RegionJobOk(w.jobs, w.worker, d, w.regions[d]);
    hide StoresInv;
  }

  lemma WorkerLower(w: World, v: World, d: DocId, j: JobId)
    requires d in w.regions && w.worker == InRegion(j, d) && Lowers(w, v, d) && PastRegion(w, v, d)
    ensures Below(RankOf(v), RankOf(w)) && (d in v.regions ==> v.worker == w.worker)
  {
    hide RegionRank;
  }

  lemma WorkerRegionAdvances(w: World, d: DocId, act: Act, j: JobId)
    requires Inv(w) && ActAllowed(w, d, act) && RegionJob(w.regions[d]) == Some(j)
    ensures w.worker == InRegion(j, d) && Below(RankOf(RegionNext(w, d, act)), RankOf(w))
    ensures d in RegionNext(w, d, act).regions ==> RegionNext(w, d, act).worker == w.worker
  {
    hide ThreadsInv, StoresInv, RegionNext, RankOf, Below, Lowers, PastRegion;
    RegionsWorker(w, d, j);
    HolderAdvances(w, d, act);
    Leaves(w, d, act, j);
    WorkerLower(w, RegionNext(w, d, act), d, j);
  }

  /** Every step of the worker brings the end of its attempt closer. */
  lemma WorkerAdvances(w: World, s: Step)
    requires Inv(w) && Enabled(w, s) && WorkerStep(w, s)
    ensures Below(RankOf(Next(w, s)), RankOf(w))
  {
    hide Inv;
    match s
    case Work(ok) => WorkAdvances(w, ok);
    case WorkPrepare(_) =>
    case WorkIndex =>
    case Region(d, act) => WorkerRegionAdvances(w, d, act, RegionJob(w.regions[d]).value);
  }

  // ---------- nobody else moves it ----------

  lemma WorkerRegion(w: World)
    requires Inv(w) && w.worker.InRegion?
    ensures w.worker.document in w.regions && RegionJob(w.regions[w.worker.document]) == Some(w.worker.job)
  {
    hide StoresInv;
  }

  lemma OtherWorkerSame(w: World, s: Step)
    requires Inv(w) && Enabled(w, s) && !WorkerStep(w, s) && !Lifecycle(s)
    ensures Next(w, s).worker == w.worker && Next(w, s).settled == w.settled && Next(w, s).escaped == w.escaped
  {
    hide Inv;
    if s.Region? { IdleWorkerSame(w, s.d, s.act); hide RegionNext; }
  }

  lemma IdleWorkerSame(w: World, d: DocId, act: Act)
    requires ActAllowed(w, d, act) && RegionJob(w.regions[d]) == None
    ensures var v := RegionNext(w, d, act); v.worker == w.worker && v.settled == w.settled && v.escaped == w.escaped
  {
    if !w.regions[d].Deleting? { RegionFrame(w, d, act); hide RegionNext; }
  }

  /** No step of another thread, short of a crash or a restart, changes how far the worker is from its end. */
  lemma OthersWait(w: World, s: Step)
    requires Inv(w) && Enabled(w, s) && !WorkerStep(w, s) && !Lifecycle(s)
    ensures RankOf(Next(w, s)) == RankOf(w) && Next(w, s).worker == w.worker
  {
    hide RegionRank, Next, Enabled, StoresInv, ThreadsInv;
    OtherWorkerSame(w, s);
    if w.worker.InRegion? {
      WorkerRegion(w);
      HolderUndisturbed(w, s, w.worker.document);
    }
  }

  // ---------- and it can always go on ----------

  /** What the worker would do next, if the lock it needs is free. */
  ghost function WorkersNext(w: World): Step {
    if w.worker.InRegion? && w.worker.document in w.regions
    then Step.Region(w.worker.document, GoOn(w, w.worker.document))
    else if w.worker.CallPrepare? then WorkPrepare(SOME_CHUNKS)
    else if w.worker.CallIndex? then WorkIndex
    else Work(true)
  }

  const SOME_CHUNKS: A.Chunks := map[0 := A.Chunk(0, "", "")]

  function GoOn(w: World, d: DocId): Act
    requires d in w.regions
  {
    if w.regions[d].Rebuilding? && w.regions[d].index.Embed? then Vectors([]) else Proceed
  }

  predicate WaitsForLock(w: World) {
    (w.worker.CallPrepare? || w.worker.CallIndex?) && w.worker.document in w.regions
  }

  lemma SomeChunked()
    ensures Chunked(SOME_CHUNKS)
  {
  }

  /** A busy worker has a step unless it waits for a lock. */
  lemma WorkerCanMove(w: World)
    requires Inv(w) && JobOf(w.worker).Some? && !WaitsForLock(w)
    ensures Enabled(w, WorkersNext(w)) && WorkerStep(w, WorkersNext(w)) && WorkersNext(w) != Work(false)
  {
    SomeChunked();
    if w.worker.InRegion? { WorkerRegion(w); }
    hide Inv, Chunked;
  }

  /** A step of the worker keeps it at its job, or settles the job; only a failing containment lets it escape. */
  lemma WorkerHoldsOrSettles(w: World, s: Step, j: JobId)
    requires Inv(w) && Enabled(w, s) && WorkerStep(w, s) && JobOf(w.worker) == Some(j)
    ensures var v := Next(w, s);
      JobOf(v.worker) == Some(j) || (v.worker.Idle? && (j in v.settled || (s == Work(false) && j in v.escaped)))
  {
    hide Inv, RegionNext, WorkNext, WorkThrow, Next, Enabled;
    if s.Region? {
      RegionIs(w, s);
      RegionHoldsOrSettles(w, s.d, s.act, j);
    } else if s.Work? {
      WorkIs(w, s);
      WorkHoldsOrSettles(w, s.ok, j);
    } else {
      EnterWorker(w, s);
    }
  }

  lemma WorkHoldsOrSettles(w: World, ok: bool, j: JobId)
    requires Outside(w.worker) && JobOf(w.worker) == Some(j)
    ensures var v := if ok then WorkNext(w) else WorkThrow(w);
      JobOf(v.worker) == Some(j) || (v.worker.Idle? && (j in v.settled || (!ok && j in v.escaped)))
  {
    hide Updated, Attached, SetGateOf, FailState, FailStage;
    if ok && w.worker.ResetGate? { SetGateShape(w, w.worker.document, Gate.PreparedNotIndexed, None); }
  }

  lemma RegionHoldsOrSettles(w: World, d: DocId, act: Act, j: JobId)
    requires Inv(w) && ActAllowed(w, d, act) && RegionJob(w.regions[d]).Some? && JobOf(w.worker) == Some(j)
    ensures var v := RegionNext(w, d, act); JobOf(v.worker) == Some(j) || (v.worker.Idle? && j in v.settled)
  {
    var r := w.regions[d];
    assert RegionJobOk(w.jobs, w.worker, d, r);
    RegionFrame(w, d, act);
    hide Inv, RegionNext;
  }

  // ---------- runs ----------

  /** Neither a crash nor a restart, and no new claim. */
  ghost predicate CrashFree(run: seq<Step>) {
    forall i | 0 <= i < |run| :: !Lifecycle(run[i])
  }

  lemma RunStep(w: World, s: Step, rest: seq<Step>)
    requires Enabled(w, s) && !Lifecycle(s) && Valid(Next(w, s), rest) && CrashFree(rest)
    ensures Valid(w, [s] + rest) && CrashFree([s] + rest) && After(w, [s] + rest) == After(Next(w, s), rest)
  {
    hide Enabled, Next, Lifecycle;
    assert ([s] + rest)[1..] == rest;
  }

  lemma {:induction false} RunJoin(w: World, one: seq<Step>, two: seq<Step>)
    requires Valid(w, one) && Valid(After(w, one), two) && CrashFree(one) && CrashFree(two)
    ensures Valid(w, one + two) && CrashFree(one + two) && After(w, one + two) == After(After(w, one), two)
    decreases |one|
  {
    hide Enabled, Next, Lifecycle;
    if one == [] {
      assert one + two == two;
    } else {
      RunJoin(Next(w, one[0]), one[1..], two);
      assert (one + two)[1..] == one[1..] + two;
    }
  }

  /** Whoever holds a lock the worker waits for can finish, without anybody else taking a step. */
  lemma {:induction false} HolderFinishes(w: World, d: DocId) returns (run: seq<Step>)
    requires Inv(w) && d in w.regions && RegionJob(w.regions[d]) == None
    ensures Valid(w, run) && CrashFree(run)
    ensures var v := After(w, run); Inv(v) && d !in v.regions && v.worker == w.worker && RankOf(v) == RankOf(w)
    decreases RegionRank(w, d, w.regions[d]).phase, RegionRank(w, d, w.regions[d]).inner
  {
    var s := Step.Region(d, GoOn(w, d));
    HolderCan(w, d);
    var v := Next(w, s);
    StepInv(w, s);
    HolderAdvances(w, d, GoOn(w, d));
    OthersWait(w, s);
    var rest: seq<Step> := [];
    if d in v.regions {
      StillIdle(w, d, GoOn(w, d));
      hide Inv, RegionRank, RankOf, Enabled, Next, GoOn;
      rest := HolderFinishes(v, d);
    }
    RunStep(w, s, rest);
    run := [s] + rest;
  }

  lemma HolderCan(w: World, d: DocId)
    requires d in w.regions && RegionJob(w.regions[d]) == None
    ensures var s := Step.Region(d, GoOn(w, d));
      Enabled(w, s) && !Lifecycle(s) && !WorkerStep(w, s) && Next(w, s) == RegionNext(w, d, GoOn(w, d))
  {
    hide RegionNext;
  }

  lemma StillIdle(w: World, d: DocId, act: Act)
    requires ActAllowed(w, d, act) && RegionJob(w.regions[d]) == None
    ensures var v := RegionNext(w, d, act); d in v.regions ==> RegionJob(v.regions[d]) == None
  {
    if !w.regions[d].Deleting? { RegionFrame(w, d, act); hide RegionNext; }
  }

  lemma LockHolder(w: World)
    requires Inv(w) && WaitsForLock(w)
    ensures RegionJob(w.regions[w.worker.document]) == None
  {
    assert RegionJobOk(w.jobs, w.worker, w.worker.document, w.regions[w.worker.document]);
    hide StoresInv;
  }

  lemma SettledEnds(w: World, j: JobId)
    requires Inv(w) && j in w.settled
    ensures j in w.jobs ==> Terminal(w.jobs[j].state)
  {
    hide StoresInv;
  }

  /** From every reachable world whose worker holds a job there is a finite run without a crash or restart in which
      the worker lets it go, and then the job is terminal or its row is gone. */
  lemma JobCanEnd(w: World, j: JobId) returns (run: seq<Step>)
    requires Reachable(w) && JobOf(w.worker) == Some(j)
    ensures Valid(w, run) && CrashFree(run)
    ensures var v := After(w, run); v.worker.Idle? && (j in v.jobs ==> Terminal(v.jobs[j].state))
  {
    ReachableInv(w);
    run := WorkerFinishes(w, j);
    RunInv(w, run);
    SettledEnds(After(w, run), j);
  }

  lemma {:induction false} WorkerFinishes(w: World, j: JobId) returns (run: seq<Step>)
    requires Inv(w) && JobOf(w.worker) == Some(j)
    ensures Valid(w, run) && CrashFree(run) && After(w, run).worker.Idle? && j in After(w, run).settled
    decreases RankOf(w).phase, RankOf(w).inner
  {
    var u, wait := w, [];
    if WaitsForLock(w) {
      LockHolder(w);
      wait := HolderFinishes(w, w.worker.document);
      u := After(w, wait);
    }
    var s := WorkersNext(u);
    WorkerCanMove(u);
    StepInv(u, s);
    WorkerAdvances(u, s);
    WorkerHoldsOrSettles(u, s, j);
    var v, rest := Next(u, s), [];
    WorkerNoLifecycle(u, s);
    hide Inv, RankOf, Enabled, Next, WorkersNext, WorkerStep, Lifecycle, WaitsForLock;
    if JobOf(v.worker) == Some(j) { rest := WorkerFinishes(v, j); }
    RunStep(u, s, rest);
    RunJoin(w, wait, [s] + rest);
    run := wait + ([s] + rest);
  }

  lemma WorkerNoLifecycle(w: World, s: Step)
    requires WorkerStep(w, s)
    ensures !Lifecycle(s)
  {
  }

  // ---------- every run ----------

  /** An endless execution without a crash, restart or claim. */
  ghost predicate Endless(trace: nat -> World, steps: nat -> Step) {
    forall i: nat :: Enabled(trace(i), steps(i)) && !Lifecycle(steps(i)) && trace(i + 1) == Next(trace(i), steps(i))
  }

  lemma {:induction false} TraceInv(trace: nat -> World, steps: nat -> Step, n: nat)
    requires Endless(trace, steps) && Inv(trace(0))
    ensures Inv(trace(n))
  {
    hide Enabled, Next, Inv, Lifecycle;
    if n > 0 {
      TraceInv(trace, steps, n - 1);
      StepInv(trace(n - 1), steps(n - 1));
    }
  }

  /** Up to the worker's next step its rank stands still. */
  lemma {:induction false} RankStands(trace: nat -> World, steps: nat -> Step, n: nat, m: nat)
    requires Endless(trace, steps) && Inv(trace(0)) && n <= m
    requires forall i | n <= i < m :: !WorkerStep(trace(i), steps(i))
    ensures RankOf(trace(m)) == RankOf(trace(n))
  {
    hide Enabled, Next, Inv, RankOf, WorkerStep, Lifecycle;
    if n < m {
      RankStands(trace, steps, n, m - 1);
      TraceInv(trace, steps, m - 1);
      OthersWait(trace(m - 1), steps(m - 1));
    }
  }

  lemma NextWorkerStep(trace: nat -> World, steps: nat -> Step, n: nat) returns (k: nat)
    requires exists i: nat :: i >= n && WorkerStep(trace(i), steps(i))
    ensures k >= n && WorkerStep(trace(k), steps(k)) && forall i | n <= i < k :: !WorkerStep(trace(i), steps(i))
  {
    var top: nat :| top >= n && WorkerStep(trace(top), steps(top));
    k := n;
    while !WorkerStep(trace(k), steps(k))
      invariant n <= k <= top && forall i | n <= i < k :: !WorkerStep(trace(i), steps(i))
      decreases top - k
    {
      k := k + 1;
    }
  }

  /** No endless execution without a crash or restart keeps the worker busy: after some point it never steps again. */
  lemma {:induction false} WorkerComesToRest(trace: nat -> World, steps: nat -> Step, n: nat) returns (m: nat)
    requires Endless(trace, steps) && Inv(trace(0))
    ensures m >= n && forall i: nat | i >= m :: !WorkerStep(trace(i), steps(i))
    decreases RankOf(trace(n)).phase, RankOf(trace(n)).inner
  {
    if exists i: nat :: i >= n && WorkerStep(trace(i), steps(i)) {
      var k := NextWorkerStep(trace, steps, n);
      RankStands(trace, steps, n, k);
      TraceInv(trace, steps, k);
      WorkerAdvances(trace(k), steps(k));
      hide Inv, RankOf, WorkerStep;
      m := WorkerComesToRest(trace, steps, k + 1);
    } else {
      m := n;
    }
  }

  // ---------- a bound ----------

  /** How long one phase can last when no chunk table has more than `c` rows. */
  function Width(c: nat): nat {
    5 * c + 40
  }

  function Weight(r: Rank, c: nat): nat {
    r.phase * (Width(c) + 1) + r.inner
  }

  lemma WeightBelow(a: Rank, b: Rank, c: nat)
    requires Below(a, b) && a.inner <= Width(c)
    ensures Weight(a, c) < Weight(b, c)
  {
    var n := Width(c) + 1;
    if a.phase < b.phase {
      assert (a.phase + 1) * n <= b.phase * n;
      assert (a.phase + 1) * n == a.phase * n + n;
    }
  }

  ghost predicate RegionSized(r: Region, c: nat) {
    r.Preparing? ==> |r.chunks| <= c && (r.prep.Working? ==> |r.prep.todo| <= Width(c))
  }

  /** No chunk table, stored or being prepared, has more than `c` rows. */
  ghost predicate Sized(w: World, c: nat) {
    && (forall a | a in w.store.files :: |w.store.files[a].chunks| <= c)
    && (forall d | d in w.regions :: RegionSized(w.regions[d], c))
  }

  predicate StepSized(s: Step, c: nat) {
    match s
    case WorkPrepare(chunks) => |chunks| <= c
    case BeginPrepare(_, chunks, _) => |chunks| <= c
    case _ => true
  }

  lemma {:induction false} PersistLength(start: nat, total: nat)
    ensures |PersistOps(start, total)| <= 2 * Left(total, start)
    decreases total - start
  {
    if start < total { PersistLength(start + PERSIST_BATCH_SIZE, total); }
  }

  lemma ScriptLength(total: nat, c: nat)
    requires total <= c
    ensures |PrepScript(total)| <= Width(c)
  {
    PersistLength(0, total);
  }

  /** One region's step, in terms of sizes only. */
  ghost predicate SizedStep(w: World, v: World, d: DocId, c: nat) {
    && (forall a | a in v.store.files :: |v.store.files[a].chunks| <= c)
    && (d in v.regions ==> RegionSized(v.regions[d], c))
  }

  lemma PrepSized(w: World, d: DocId, act: Act, c: nat)
    requires ActAllowed(w, d, act) && Sized(w, c) && w.regions[d].Preparing?
    ensures SizedStep(w, RegionNext(w, d, act), d, c)
  {
    assert RegionSized(w.regions[d], c);
    ScriptLength(|w.regions[d].chunks|, c);
    PrepRegionSized(w, d, act, c);
    PrepFilesSized(w, d, act, c);
    hide RegionNext, RegionSized, Sized;
  }

  lemma PrepRegionSized(w: World, d: DocId, act: Act, c: nat)
    requires ActAllowed(w, d, act) && w.regions[d].Preparing? && RegionSized(w.regions[d], c)
    requires |PrepScript(|w.regions[d].chunks|)| <= Width(c)
    ensures var v := RegionNext(w, d, act); d in v.regions ==> RegionSized(v.regions[d], c)
  {
    hide PrepScript, PrepProgress, Updated, Attached, CancelSeen, Width;
  }

  lemma PrepFilesSized(w: World, d: DocId, act: Act, c: nat)
    requires ActAllowed(w, d, act) && w.regions[d].Preparing? && |w.regions[d].chunks| <= c
    requires forall a | a in w.store.files :: |w.store.files[a].chunks| <= c
    ensures var v := RegionNext(w, d, act); forall a | a in v.store.files :: |v.store.files[a].chunks| <= c
  {
    if !(act.Proceed? && w.regions[d].prep.Promote?) {
      PrepFilesSame(w, d, act);
      hide RegionNext;
    }
  }

  lemma FileSized(w: World, d: DocId, c: nat)
    requires Sized(w, c) && d in w.regions && w.regions[d].Rebuilding? && IsFileStep(w.regions[d].index)
    ensures SizedStep(w, IndexFileStep(w, d, w.regions[d]), d, c)
  {
    FileFrame(w, d, w.regions[d]);
    hide IndexFileStep, Width;
  }

  lemma CatalogSized(w: World, d: DocId, c: nat)
    requires Sized(w, c) && d in w.regions && w.regions[d].Rebuilding?
    ensures SizedStep(w, IndexCatalogStep(w, d, w.regions[d]), d, c)
  {
    CatalogFrame(w, d, w.regions[d]);
    CatalogFiles(w, d);
    hide Width, IndexCatalogStep, CatalogStore;
  }

  lemma IndexSized(w: World, d: DocId, act: Act, c: nat)
    requires ActAllowed(w, d, act) && Sized(w, c) && w.regions[d].Rebuilding?
    ensures SizedStep(w, RegionNext(w, d, act), d, c)
  {
    var r := w.regions[d];
    hide Width;
    if act.Proceed? {
      if IsFileStep(r.index) {
        FileSized(w, d, c);
        hide IndexFileStep;
      } else if IsCheck(r.index) || IsReport(r.index) {
        hide IndexFileStep, IndexCatalogStep, AfterCheck, AfterReport, ReportStage, ReportLocal;
      } else {
        CatalogSized(w, d, c);
        hide IndexCatalogStep;
      }
    }
  }

  lemma DeleteSized(w: World, d: DocId, act: Act, c: nat)
    requires ActAllowed(w, d, act) && Sized(w, c) && w.regions[d].Deleting?
    ensures SizedStep(w, RegionNext(w, d, act), d, c)
  {
    hide Width;
  }

  lemma OtherSized(w: World, s: Step, c: nat)
    requires Enabled(w, s) && Sized(w, c) && StepSized(s, c) && !s.Region?
    ensures Sized(Next(w, s), c)
  {
    var v := Next(w, s);
    StepApart(w, s);
    hide Width, Next, Enabled;
    forall d | d in v.regions ensures RegionSized(v.regions[d], c) {
      if d in w.regions { assert RegionSized(w.regions[d], c); }
    }
  }

  lemma StaysSized(w: World, s: Step, c: nat)
    requires Enabled(w, s) && Sized(w, c) && StepSized(s, c)
    ensures Sized(Next(w, s), c)
  {
    if s.Region? {
      var d := s.d;
      if w.regions[d].Preparing? { PrepSized(w, d, s.act, c); }
      else if w.regions[d].Rebuilding? { IndexSized(w, d, s.act, c); }
      else { DeleteSized(w, d, s.act, c); }
      RegionElsewhere(w, d, s.act);
      hide RegionNext, RegionSized;
    } else {
      OtherSized(w, s, c);
    }
  }

  lemma InnerBound(w: World, c: nat)
    requires Inv(w) && Sized(w, c)
    ensures RankOf(w).inner <= Width(c)
  {
    if w.worker.InRegion? {
      WorkerRegion(w);
      RegionInner(w, w.worker.document, c);
      hide Inv, RegionRank, Sized;
    } else {
      hide Inv, RegionRank, Sized;
    }
  }

  lemma RegionInner(w: World, d: DocId, c: nat)
    requires Sized(w, c) && d in w.regions && RegionJob(w.regions[d]).Some?
    ensures RegionRank(w, d, w.regions[d]).inner <= Width(c)
  {
    assert RegionSized(w.regions[d], c);
  }

  /** How many steps of a run the worker takes. */
  ghost function WorkerSteps(w: World, run: seq<Step>): nat
    requires Valid(w, run)
    decreases |run|
  {
    if run == [] then 0
    else (if WorkerStep(w, run[0]) then 1 else 0) + WorkerSteps(Next(w, run[0]), run[1..])
  }

  /** In a run without a crash or restart the worker takes at most as many steps as its rank weighs; and if it has let
      its job go, it has settled it, unless even containment failed. */
  lemma {:induction false} WorkIsBounded(w: World, run: seq<Step>, c: nat, j: JobId)
    requires Inv(w) && Valid(w, run) && CrashFree(run) && Sized(w, c) && forall i | 0 <= i < |run| :: StepSized(run[i], c)
    requires JobOf(w.worker) == Some(j) || (w.worker.Idle? && (j in w.settled || j in w.escaped))
    ensures WorkerSteps(w, run) <= Weight(RankOf(w), c)
    ensures var v := After(w, run);
      Inv(v) && (JobOf(v.worker) == Some(j) || (v.worker.Idle? && (j in v.settled || j in v.escaped)))
    decreases |run|
  {
    if run != [] {
      var s := run[0];
      var v := Next(w, s);
      StepInv(w, s);
      StaysSized(w, s, c);
      InnerBound(v, c);
      assert !Lifecycle(s);
      if WorkerStep(w, s) {
        WorkerAdvances(w, s);
        BusyWorker(w, s);
        WorkerHoldsOrSettles(w, s, j);
        WeightBelow(RankOf(v), RankOf(w), c);
      } else {
        OthersWait(w, s);
        OtherWorkerSame(w, s);
      }
      hide Inv, RankOf, Next, Enabled, WorkerStep, Lifecycle, Sized, Weight, StepSized;
      WorkIsBounded(v, run[1..], c, j);
    }
  }

  lemma BusyWorker(w: World, s: Step)
    requires Inv(w) && Enabled(w, s) && WorkerStep(w, s)
    ensures JobOf(w.worker).Some?
  {
    if s.Region? { assert RegionJobOk(w.jobs, w.worker, s.d, w.regions[s.d]); }
    hide StoresInv;
  }

  /** The worker cannot be kept busy for ever with one job: the number of its steps in a run without a crash or restart
      is bounded, and once it has let the job go, the job is terminal or its row is gone, unless containment failed. */
  lemma ClaimedJobEnds(w: World, run: seq<Step>, c: nat, j: JobId)
    requires Reachable(w) && Valid(w, run) && CrashFree(run) && JobOf(w.worker) == Some(j)
    requires Sized(w, c) && forall i | 0 <= i < |run| :: StepSized(run[i], c)
    ensures WorkerSteps(w, run) <= Weight(RankOf(w), c)
    ensures var v := After(w, run);
      JobOf(v.worker) == Some(j) || j in v.escaped || (j in v.jobs ==> Terminal(v.jobs[j].state))
  {
    ReachableInv(w);
    WorkIsBounded(w, run, c, j);
    if j in After(w, run).settled { SettledEnds(After(w, run), j); }
  }
}
