/** The job table and the worker through every step of the pipeline. */
module PipelineJobs {
  import opened Wrappers
  import opened LocalJobs
  import opened DocumentPipeline
  import opened PipelineSafety
  import opened PipelineFrames
  import A = ArtifactIndex

  // ---------- one row at a time ----------

  /** Only the worker's own row may differ, and lawfully. */
  ghost predicate RowMoved(w: World, v: World, j: JobId) {
    && v.jobs.Keys == w.jobs.Keys
    && (forall i | i in w.jobs && i != j :: v.jobs[i] == w.jobs[i])
    && JobsOk(v.jobs, v.next)
    && Monotone(w.jobs, v.jobs)
  }

  lemma RowUnmoved(w: World, v: World, j: JobId)
    requires JobsOk(w.jobs, w.next) && v.jobs == w.jobs && w.next <= v.next
    ensures RowMoved(w, v, j)
  {
  }

  lemma UpdateMoves(
    w: World, v: World, j: JobId, state: JobState, stage: Stage, progress: int, error: Option<Code>)
    requires JobsOk(w.jobs, w.next) && Live(w.jobs, j) && w.next <= v.next
    requires v.jobs == Updated(w.jobs, j, state, stage, progress, error)
    requires (state == Running && progress < 100) || (Terminal(state) && progress == 100)
    ensures RowMoved(w, v, j) && (j in v.jobs ==> v.jobs[j].state == state)
  {
    if j in w.jobs {
      RowUpdateKeeps(w.jobs, j, v.jobs[j]);
    }
  }

  lemma AttachMoves(w: World, v: World, j: JobId, a: ArtId)
    requires JobsOk(w.jobs, w.next) && v.jobs == Attached(w.jobs, j, a) && w.next <= v.next
    ensures RowMoved(w, v, j) && (j in v.jobs ==> v.jobs[j].state == w.jobs[j].state)
  {
    if j in w.jobs {
      RowUpdateKeeps(w.jobs, j, v.jobs[j]);
    }
  }

  lemma ProgressBelow(local: int)
    ensures PrepProgress(local) <= 60 && IndexProgress(local) <= 99
  {
  }

  /** A step of the worker, inside a region or not, reduced to what it does to its own job. */
  lemma AssembleThreads(w: World, v: World, j: JobId)
    requires ThreadsInv(w) && JobOf(w.worker) == Some(j) && RowMoved(w, v, j) && w.next <= v.next
    requires WorkerOk(v.jobs, v.regions, v.worker, v.next) && RegionJobsOk(v.jobs, v.worker, v.regions)
    requires w.escaped <= v.escaped && v.settled <= w.settled + {j}
    requires j in v.settled && j in v.jobs ==> Terminal(v.jobs[j].state)
    requires j in v.jobs && v.jobs[j].state == Running ==>
      v.worker.Down? || JobOf(v.worker) == Some(j) || j in v.escaped
    ensures ThreadsInv(v)
  {
    forall i | i in v.settled ensures i < v.next && (i in v.jobs ==> Terminal(v.jobs[i].state)) {
      if i != j { assert i in w.settled; }
    }
  }

  // ---------- regions with the worker's job ----------

  /** Other regions carry no job. */
  lemma OtherRegionsIdle(w: World, d: DocId, j: JobId)
    requires ThreadsInv(w) && w.worker == InRegion(j, d)
    ensures d in w.regions && RegionJob(w.regions[d]) == Some(j) && RegionJobOk(w.jobs, w.worker, d, w.regions[d])
    ensures forall e | e in w.regions && e != d :: RegionJob(w.regions[e]) == None
  {
    forall e | e in w.regions && e != d ensures RegionJob(w.regions[e]) == None {
      assert RegionJobOk(w.jobs, w.worker, e, w.regions[e]);
    }
  }

  /** The region goes on. */
  lemma StayInRegion(w: World, v: World, d: DocId, j: JobId)
    requires ThreadsInv(w) && w.worker == InRegion(j, d) == v.worker && RowMoved(w, v, j)
    requires SameElsewhere(w, v, d) && d in v.regions && RegionJob(v.regions[d]) == Some(j)
    requires j in v.jobs && (if v.regions[d].Preparing? && v.regions[d].prep.PrepFailed?
      then v.jobs[j].state != Queued else Live(v.jobs, j))
    requires w.next <= v.next && v.settled == w.settled && v.escaped == w.escaped
    ensures ThreadsInv(v)
  {
    OtherRegionsIdle(w, d, j);
    forall e | e in v.regions ensures RegionJobOk(v.jobs, v.worker, e, v.regions[e]) {
      if e == d { assert j in w.jobs && w.jobs[j].document == Some(d); }
    }
    if j in v.settled { assert Terminal(w.jobs[j].state); }
    AssembleThreads(w, v, j);
  }

  /** The region ends and the worker is outside again. */
  lemma LeaveRegion(w: World, v: World, d: DocId, j: JobId)
    requires ThreadsInv(w) && w.worker == InRegion(j, d) && RowMoved(w, v, j)
    requires SameElsewhere(w, v, d) && d !in v.regions && w.next <= v.next
    requires v.escaped == w.escaped
    requires (v.worker.Idle? && v.settled == w.settled + {j} && (j in v.jobs ==> Terminal(v.jobs[j].state)))
      || (v.worker.Catching? && v.worker.job == j && v.settled == w.settled && Handled(v.jobs, j))
      || (v.worker.AfterPrepare? && v.worker.job == j && v.settled == w.settled && Live(v.jobs, j))
    ensures ThreadsInv(v)
  {
    OtherRegionsIdle(w, d, j);
    forall e | e in v.regions ensures RegionJobOk(v.jobs, v.worker, e, v.regions[e]) {}
    if j in w.settled { assert j in v.jobs ==> Terminal(w.jobs[j].state); }
    AssembleThreads(w, v, j);
  }

  lemma PrepThrowThreads(w: World, d: DocId, code: Code, j: JobId)
    requires ThreadsInv(w) && w.worker == InRegion(j, d) && d in w.regions
    requires w.regions[d].Preparing? && w.regions[d].job == Some(j)
    ensures ThreadsInv(PrepThrow(w, d, w.regions[d], code)) && RowMoved(w, PrepThrow(w, d, w.regions[d], code), j)
  {
    var r, v := w.regions[d], PrepThrow(w, d, w.regions[d], code);
    OtherRegionsIdle(w, d, j);
    RowUnmoved(w, v, j);
    if r.prep.Bind? || r.prep.PrepFailing? || r.prep.PrepFailed? {
      RaiseShape(w, d, r.job, code);
      hide Raise, RowMoved, ThreadsInv;
      LeaveRegion(w, v, d, j);
    } else {
      hide RowMoved, ThreadsInv;
      StayInRegion(w, v, d, j);
    }
  }

  lemma PrepWorkingThreads(w: World, d: DocId, j: JobId)
    requires ThreadsInv(w) && w.worker == InRegion(j, d) && d in w.regions
    requires w.regions[d].Preparing? && w.regions[d].job == Some(j) && w.regions[d].prep.Working?
    ensures ThreadsInv(PrepProceed(w, d, w.regions[d])) && RowMoved(w, PrepProceed(w, d, w.regions[d]), j)
  {
    var r, v := w.regions[d], PrepProceed(w, d, w.regions[d]);
    var todo := r.prep.todo;
    OtherRegionsIdle(w, d, j);
    if todo != [] && todo[0].Report? {
      ProgressBelow(todo[0].progress);
      UpdateMoves(w, v, j, Running, todo[0].stage, PrepProgress(todo[0].progress), None);
    } else {
      if todo != [] && todo[0].SetGate? { SetGateShape(w, d, todo[0].gate, None); }
      RowUnmoved(w, v, j);
    }
    hide RowMoved, ThreadsInv, SetGateOf, PrepProgress, Updated;
    StayInRegion(w, v, d, j);
  }

  lemma PrepProceedThreads(w: World, d: DocId, j: JobId)
    requires ThreadsInv(w) && w.worker == InRegion(j, d) && d in w.regions
    requires w.regions[d].Preparing? && w.regions[d].job == Some(j)
    ensures ThreadsInv(PrepProceed(w, d, w.regions[d])) && RowMoved(w, PrepProceed(w, d, w.regions[d]), j)
  {
    var r, v := w.regions[d], PrepProceed(w, d, w.regions[d]);
    OtherRegionsIdle(w, d, j);
    match r.prep
    case Working(_) => PrepWorkingThreads(w, d, j);
    case Bind =>
      AttachMoves(w, v, j, r.artifact);
      hide RowMoved, ThreadsInv, PrepScript, Attached;
      StayInRegion(w, v, d, j);
    case Promote =>
      RowUnmoved(w, v, j);
      hide RowMoved, ThreadsInv;
      StayInRegion(w, v, d, j);
    case Register =>
      RowUnmoved(w, v, j);
      hide RowMoved, ThreadsInv;
      StayInRegion(w, v, d, j);
    case Prepared =>
      UpdateMoves(w, v, j, Running, Stage.PreparedNotIndexed, 60, None);
      hide RowMoved, ThreadsInv, Updated;
      LeaveRegion(w, v, d, j);
    case PrepFailing(code) =>
      UpdateMoves(w, v, j, FailState(code), FailStage(code), 100, Some(code));
      hide RowMoved, ThreadsInv, Updated;
      StayInRegion(w, v, d, j);
    case PrepFailed(code) => PrepFailedThreads(w, d, j);
  }

  lemma PrepFailedThreads(w: World, d: DocId, j: JobId)
    requires ThreadsInv(w) && w.worker == InRegion(j, d) && d in w.regions
    requires w.regions[d].Preparing? && w.regions[d].job == Some(j) && w.regions[d].prep.PrepFailed?
    ensures ThreadsInv(PrepProceed(w, d, w.regions[d])) && RowMoved(w, PrepProceed(w, d, w.regions[d]), j)
  {
    var r, v := w.regions[d], PrepProceed(w, d, w.regions[d]);
    OtherRegionsIdle(w, d, j);
    var u := if r.hadActive then w else SetGateOf(w, d, Gate.Failed, Some(r.prep.code));
    SetGateShape(w, d, Gate.Failed, Some(r.prep.code));
    RaiseShape(u, d, r.job, r.prep.code);
    RowUnmoved(w, v, j);
    hide RowMoved, ThreadsInv, Raise, SetGateOf;
    LeaveRegion(w, v, d, j);
  }

  lemma IndexThrowThreads(w: World, d: DocId, code: Code, j: JobId)
    requires ThreadsInv(w) && w.worker == InRegion(j, d) && d in w.regions
    requires w.regions[d].Rebuilding? && w.regions[d].job == Some(j)
    ensures ThreadsInv(IndexThrow(w, d, w.regions[d], code)) && RowMoved(w, IndexThrow(w, d, w.regions[d], code), j)
  {
    var r, v := w.regions[d], IndexThrow(w, d, w.regions[d], code);
    OtherRegionsIdle(w, d, j);
    RowUnmoved(w, v, j);
    if r.index.Attach? || r.index.CloseGate? || r.index.RestoreGate? || r.index.FailJob? {
      RaiseShape(w, d, r.job, code);
      hide Raise, RowMoved, ThreadsInv;
      LeaveRegion(w, v, d, j);
    } else {
      hide RowMoved, ThreadsInv;
      StayInRegion(w, v, d, j);
    }
  }

  lemma IndexQuietThreads(w: World, d: DocId, j: JobId)
    requires ThreadsInv(w) && w.worker == InRegion(j, d) && d in w.regions
    requires w.regions[d].Rebuilding? && w.regions[d].job == Some(j)
    requires IsCheck(w.regions[d].index) || IsReport(w.regions[d].index) || IsFileStep(w.regions[d].index)
    ensures ThreadsInv(IndexProceed(w, d, w.regions[d])) && RowMoved(w, IndexProceed(w, d, w.regions[d]), j)
  {
    var r, v := w.regions[d], IndexProceed(w, d, w.regions[d]);
    OtherRegionsIdle(w, d, j);
    if IsFileStep(r.index) {
      FileFrame(w, d, r);
      RowUnmoved(w, v, j);
    } else if IsCheck(r.index) {
      RowUnmoved(w, v, j);
    } else {
      var local := ReportLocal(r.index, Total(w, r.artifact));
      ProgressBelow(local);
      hide AfterReport, ReportLocal, IndexProgress;
      UpdateMoves(w, v, j, Running, ReportStage(r.index), IndexProgress(local), None);
    }
    hide RowMoved, ThreadsInv, IndexFileStep, AfterCheck, AfterReport, Updated, ReportStage, ReportLocal, IndexProgress;
    StayInRegion(w, v, d, j);
  }

  lemma IndexCatalogThreads(w: World, d: DocId, j: JobId)
    requires ThreadsInv(w) && w.worker == InRegion(j, d) && d in w.regions
    requires w.regions[d].Rebuilding? && w.regions[d].job == Some(j) && !w.regions[d].index.Embed?
    requires !IsCheck(w.regions[d].index) && !IsReport(w.regions[d].index) && !IsFileStep(w.regions[d].index)
    ensures ThreadsInv(IndexCatalogStep(w, d, w.regions[d])) && RowMoved(w, IndexCatalogStep(w, d, w.regions[d]), j)
  {
    var r, v := w.regions[d], IndexCatalogStep(w, d, w.regions[d]);
    OtherRegionsIdle(w, d, j);
    if r.index.Succeed? {
      UpdateMoves(w, v, j, Succeeded, Stage.IndexReady, 100, None);
      hide RowMoved, ThreadsInv, Updated;
      LeaveRegion(w, v, d, j);
    } else if r.index.FailJob? {
      var code := r.index.code;
      UpdateMoves(w, v, j, FailState(code), FailStage(code), 100, Some(code));
      RaiseShape(UpdateJob(w, r.job, FailState(code), FailStage(code), 100, Some(code)), d, r.job, code);
      hide RowMoved, ThreadsInv, Updated, Raise;
      LeaveRegion(w, v, d, j);
    } else {
      if r.index.Attach? { AttachMoves(w, v, j, r.artifact); } else { RowUnmoved(w, v, j); }
      hide RowMoved, ThreadsInv, Attached, Opened;
      StayInRegion(w, v, d, j);
    }
  }

  lemma VectorThreads(w: World, d: DocId, j: JobId, v: World)
    requires ThreadsInv(w) && w.worker == InRegion(j, d) && d in w.regions
    requires w.regions[d].Rebuilding? && w.regions[d].job == Some(j)
    requires exists index :: v == Enter(w, d, w.regions[d].(index := index))
    ensures ThreadsInv(v) && RowMoved(w, v, j)
  {
    OtherRegionsIdle(w, d, j);
    RowUnmoved(w, v, j);
    hide RowMoved, ThreadsInv;
    StayInRegion(w, v, d, j);
  }

  /** A step inside the worker's region. */
  lemma WorkerRegionThreads(w: World, d: DocId, act: Act, j: JobId)
    requires ThreadsInv(w) && ActAllowed(w, d, act) && RegionJob(w.regions[d]) == Some(j)
    ensures ThreadsInv(RegionNext(w, d, act)) && RowMoved(w, RegionNext(w, d, act), j)
  {
    var r := w.regions[d];
    assert RegionJobOk(w.jobs, w.worker, d, r);
    hide ThreadsInv, RowMoved;
    if r.Preparing? {
      if act.Throw? { PrepThrowThreads(w, d, act.code, j); } else { PrepProceedThreads(w, d, j); }
    } else if act.Throw? {
      IndexThrowThreads(w, d, act.code, j);
    } else if act.Vectors? {
      var index := CheckPage(r.index.processed, r.index.last, act.vectors);
      assert RegionNext(w, d, act) == Enter(w, d, r.(index := index));
      VectorThreads(w, d, j, RegionNext(w, d, act));
    } else if IsCheck(r.index) || IsReport(r.index) || IsFileStep(r.index) {
      IndexQuietThreads(w, d, j);
    } else {
      IndexCatalogThreads(w, d, j);
    }
  }

  // ---------- steps of other threads ----------

  /** No old id comes back, new rows are queued, and a surviving row is as it was or newly cancelled. */
  ghost predicate ApiMoved(jobs: Table, after: Table, next: nat) {
    forall j | j in after ::
      if j in jobs then
        && after[j].document == jobs[j].document
        && (after[j].state == jobs[j].state || (after[j].state == CancelRequested && Cancellable(jobs[j])))
      else
        j >= next && after[j].state == Queued
  }

  lemma ApiThreads(w: World, v: World, d: DocId)
    requires ThreadsInv(w) && JobsOk(v.jobs, v.next) && ApiMoved(w.jobs, v.jobs, w.next) && w.next <= v.next
    requires v.worker == w.worker && v.settled == w.settled && v.escaped == w.escaped && SameElsewhere(w, v, d)
    requires d in w.regions ==> RegionJob(w.regions[d]) == None || v.regions == w.regions
    requires d in v.regions ==> RegionJob(v.regions[d]) == None || v.regions == w.regions
    requires forall e | e in v.regions && RegionJob(v.regions[e]).Some? :: RegionJob(v.regions[e]).value in v.jobs
    ensures ThreadsInv(v)
  {
    forall e | e in v.regions ensures RegionJobOk(v.jobs, v.worker, e, v.regions[e]) {
      if RegionJob(v.regions[e]).Some? {
        assert e in w.regions && v.regions[e] == w.regions[e];
        assert RegionJobOk(w.jobs, w.worker, e, w.regions[e]);
      }
    }
    forall j | j in v.settled ensures j < v.next && (j in v.jobs ==> Terminal(v.jobs[j].state)) {}
    assert WorkerOk(v.jobs, v.regions, v.worker, v.next);
  }

  lemma EnqueueThreads(w: World, d: DocId, now: int)
    requires ThreadsInv(w)
    ensures var v := w.(jobs := Enqueued(w.jobs, d, w.next, now), next := w.next + 1);
      ThreadsInv(v) && Monotone(w.jobs, v.jobs)
  {
    var v := w.(jobs := Enqueued(w.jobs, d, w.next, now), next := w.next + 1);
    EnqueueKeeps(w.jobs, d, w.next, now);
    RegionRowsKept(w, v);
    hide TableOk, WorkerOk;
    ApiThreads(w, v, d);
  }

  lemma RegionRowsKept(w: World, v: World)
    requires ThreadsInv(w) && v.regions == w.regions && w.jobs.Keys <= v.jobs.Keys
    ensures forall e | e in v.regions && RegionJob(v.regions[e]).Some? :: RegionJob(v.regions[e]).value in v.jobs
  {
    forall e | e in v.regions && RegionJob(v.regions[e]).Some? ensures RegionJob(v.regions[e]).value in v.jobs {
      assert RegionJobOk(w.jobs, w.worker, e, w.regions[e]);
    }
  }

  lemma CancelThreads(w: World, j: JobId)
    requires ThreadsInv(w)
    ensures var v := w.(jobs := CancelRequestedFor(w.jobs, j)); ThreadsInv(v) && Monotone(w.jobs, v.jobs)
  {
    var v := w.(jobs := CancelRequestedFor(w.jobs, j));
    if j in w.jobs { RowUpdateKeeps(w.jobs, j, CancelRow(w.jobs[j])); }
    RegionRowsKept(w, v);
    ApiThreads(w, v, 0);
  }

  /** A region without a job: only a deletion touches the table. */
  lemma IdleRegionThreads(w: World, d: DocId, act: Act)
    requires ThreadsInv(w) && ActAllowed(w, d, act) && RegionJob(w.regions[d]) == None
    ensures ThreadsInv(RegionNext(w, d, act)) && Monotone(w.jobs, RegionNext(w, d, act).jobs)
  {
    var r, v := w.regions[d], RegionNext(w, d, act);
    if r.Deleting? {
      DeleteThreads(w, d, act);
    } else {
      RegionFrame(w, d, act);
      JobRegionsElsewhere(w, v, d);
      hide RegionNext, WorkerOk, JobsOk;
      ApiThreads(w, v, d);
    }
  }

  lemma JobRegionsElsewhere(w: World, v: World, d: DocId)
    requires ThreadsInv(w) && SameElsewhere(w, v, d) && v.jobs == w.jobs
    requires d in v.regions ==> RegionJob(v.regions[d]) == None
    ensures forall e | e in v.regions && RegionJob(v.regions[e]).Some? :: RegionJob(v.regions[e]).value in v.jobs
  {
    forall e | e in v.regions && RegionJob(v.regions[e]).Some? ensures RegionJob(v.regions[e]).value in v.jobs {
      assert e in w.regions && RegionJobOk(w.jobs, w.worker, e, w.regions[e]);
    }
  }

  lemma DeleteThreads(w: World, d: DocId, act: Act)
    requires ThreadsInv(w) && ActAllowed(w, d, act) && w.regions[d].Deleting?
    ensures ThreadsInv(RegionNext(w, d, act)) && Monotone(w.jobs, RegionNext(w, d, act).jobs)
  {
    var r, v := w.regions[d], RegionNext(w, d, act);
    forall e | e in v.regions && RegionJob(v.regions[e]).Some? ensures RegionJob(v.regions[e]).value in v.jobs {
      assert e != d && e in w.regions && RegionJobOk(w.jobs, w.worker, e, w.regions[e]);
    }
    if act.Proceed? && r.delete.CancelJobs? { CancelledForKeeps(w.jobs, d); }
    if act.Proceed? && r.delete.RemoveRows? { DeletedForKeeps(w.jobs, d); }
    ApiThreads(w, v, d);
  }

  // ---------- the worker outside regions ----------

  /** The worker moves on outside regions, still holding its job. */
  lemma MoveOn(w: World, v: World, j: JobId)
    requires ThreadsInv(w) && Outside(w.worker) && JobOf(w.worker) == Some(j) == JobOf(v.worker)
    requires RowMoved(w, v, j) && v.regions == w.regions && w.next <= v.next
    requires v.settled == w.settled && v.escaped == w.escaped && !v.worker.InRegion?
    requires v.worker.Ending? ==> Terminal(v.worker.state)
    requires if v.worker.Catching? || v.worker.Contained? then Handled(v.jobs, j) else Live(v.jobs, j)
    ensures ThreadsInv(v)
  {
    NoJobRegions(w);
    if j in v.settled && j in v.jobs { assert Terminal(w.jobs[j].state); }
    AssembleThreads(w, v, j);
  }

  lemma NoJobRegions(w: World)
    requires ThreadsInv(w) && !w.worker.InRegion?
    ensures forall e | e in w.regions :: RegionJob(w.regions[e]) == None
  {
    forall e | e in w.regions ensures RegionJob(w.regions[e]) == None {
      assert RegionJobOk(w.jobs, w.worker, e, w.regions[e]);
    }
  }

  /** The worker is done with its job. */
  lemma LetGo(w: World, v: World, j: JobId)
    requires ThreadsInv(w) && Outside(w.worker) && JobOf(w.worker) == Some(j) && v.worker == Idle
    requires RowMoved(w, v, j) && v.regions == w.regions && w.next <= v.next
    requires (v.settled == w.settled + {j} && v.escaped == w.escaped && (j in v.jobs ==> Terminal(v.jobs[j].state)))
      || (v.settled == w.settled && v.escaped == w.escaped + {j} && v.jobs == w.jobs)
    ensures ThreadsInv(v)
  {
    NoJobRegions(w);
    if j in v.settled && j in v.jobs && j in w.settled { assert Terminal(w.jobs[j].state); }
    AssembleThreads(w, v, j);
  }

  lemma WorkThrowThreads(w: World)
    requires ThreadsInv(w) && Outside(w.worker)
    ensures ThreadsInv(WorkThrow(w)) && Monotone(w.jobs, WorkThrow(w).jobs)
  {
    var j, v := w.worker.job, WorkThrow(w);
    RowUnmoved(w, v, j);
    if w.worker.Contained? { LetGo(w, v, j); } else { MoveOn(w, v, j); }
  }

  lemma WorkNextThreads(w: World)
    requires ThreadsInv(w) && Outside(w.worker)
    ensures ThreadsInv(WorkNext(w)) && Monotone(w.jobs, WorkNext(w).jobs)
  {
    var j, v := w.worker.job, WorkNext(w);
    if w.worker.Ending? || w.worker.Catching? || w.worker.CatchWrite? || w.worker.Contained? {
      WorkEndThreads(w);
    } else {
      if w.worker.AttachReady? || w.worker.AttachPrepared? {
        AttachMoves(w, v, j, w.worker.artifact);
      } else {
        if w.worker.ResetGate? { SetGateShape(w, w.worker.document, Gate.PreparedNotIndexed, None); }
        RowUnmoved(w, v, j);
      }
      hide RowMoved, ThreadsInv, SetGateOf, Attached;
      LiveOutside(w);
      MoveOn(w, v, j);
    }
  }

  lemma LiveOutside(w: World)
    requires ThreadsInv(w) && Outside(w.worker) && !w.worker.Catching? && !w.worker.Contained?
    ensures Live(w.jobs, w.worker.job)
  {
  }

  /** `_process` returns: normally, out of its except clause, or contained by `_run`. */
  lemma WorkEndThreads(w: World)
    requires ThreadsInv(w) && Outside(w.worker)
    requires w.worker.Ending? || w.worker.Catching? || w.worker.CatchWrite? || w.worker.Contained?
    ensures ThreadsInv(WorkNext(w)) && Monotone(w.jobs, WorkNext(w).jobs)
  {
    var j, v := w.worker.job, WorkNext(w);
    match w.worker
    case Ending(_, state, stage, error) =>
      UpdateMoves(w, v, j, state, stage, 100, error);
      LetGo(w, v, j);
    case CatchWrite(_, code) =>
      UpdateMoves(w, v, j, FailState(code), FailStage(code), 100, Some(code));
      LetGo(w, v, j);
    case Catching(_, _) =>
      RowUnmoved(w, v, j);
      if v.worker.Idle? { LetGo(w, v, j); } else { MoveOn(w, v, j); }
    case Contained(_) =>
      if j in w.jobs && Active(w.jobs[j].state) {
        UpdateMoves(w, v, j, JobState.Failed, FailedStage, 100, Some(InternalComputeError));
      } else {
        RowUnmoved(w, v, j);
      }
      LetGo(w, v, j);
  }

  lemma EnterThreads(w: World, v: World, j: JobId, d: DocId, r: Region)
    requires ThreadsInv(w) && (w.worker == CallPrepare(j, d) || w.worker == CallIndex(j, d)) && d !in w.regions
    requires v.jobs == w.jobs && v.settled == w.settled && v.escaped == w.escaped && w.next <= v.next
    requires (v.worker.Catching? && v.worker.job == j && v.regions == w.regions)
      || (v.worker == InRegion(j, d) && JobMatches(w, j, d) && v.regions == w.regions[d := r]
          && RegionJob(r) == Some(j) && !(r.Preparing? && r.prep.PrepFailed?))
    ensures ThreadsInv(v)
  {
    NoJobRegions(w);
    RowUnmoved(w, v, j);
    if v.worker.InRegion? {
      forall e | e in v.regions ensures RegionJobOk(v.jobs, v.worker, e, v.regions[e]) {}
    }
    if j in v.settled && j in v.jobs { assert Terminal(w.jobs[j].state); }
    AssembleThreads(w, v, j);
  }

  lemma ClaimThreads(w: World, j: JobId)
    requires ThreadsInv(w) && Enabled(w, Claim(j))
    ensures ThreadsInv(Next(w, Claim(j))) && Monotone(w.jobs, Next(w, Claim(j)).jobs)
  {
    var v := Next(w, Claim(j));
    NoJobRegions(w);
    RowUpdateKeeps(w.jobs, j, ClaimRow(w.jobs[j]));
    assert j !in w.settled;
    forall i | i in v.settled ensures i < v.next && (i in v.jobs ==> Terminal(v.jobs[i].state)) {}
  }

  lemma StartThreads(w: World)
    requires ThreadsInv(w) && Enabled(w, Start)
    ensures ThreadsInv(Next(w, Start)) && Monotone(w.jobs, Next(w, Start).jobs)
  {
    ReconcileSettles(w.jobs);
  }

  lemma CrashThreads(w: World)
    requires ThreadsInv(w)
    ensures ThreadsInv(w.(worker := Down, regions := map[]))
  {
  }

  lemma EntryThreads(w: World, v: World, d: DocId, r: Region)
    requires ThreadsInv(w) && d !in w.regions && v.jobs == w.jobs && w.next <= v.next
    requires v.worker == w.worker && v.settled == w.settled && v.escaped == w.escaped
    requires v.regions == w.regions[d := r] && RegionJob(r) == None
    ensures ThreadsInv(v)
  {
    JobRegionsElsewhere(w, v, d);
    ApiThreads(w, v, d);
  }

  /** Steps of API threads that leave the table alone. */
  lemma ApiStepThreads(w: World, s: Step)
    requires ThreadsInv(w) && Enabled(w, s)
    requires s.Accept? || s.ForceReindex? || s.ActivateArtifact? || s.BeginDelete? || s.BeginPrepare? || s.BeginIndex?
    ensures ThreadsInv(Next(w, s)) && Monotone(w.jobs, Next(w, s).jobs)
  {
    var v := Next(w, s);
    hide SetGateOf, Opened, Chunked, ThreadsInv;
    if s.BeginDelete? || s.BeginPrepare? || s.BeginIndex? {
      EntryThreads(w, v, s.d, v.regions[s.d]);
    } else {
      if s.ForceReindex? { SetGateShape(w, s.d, Gate.PreparedNotIndexed, None); }
      SameThreads(w, v);
    }
  }

  /** Every step keeps the threads' invariant and never takes back a flag or a terminal state. */
  lemma StepThreads(w: World, s: Step)
    requires ThreadsInv(w) && Enabled(w, s)
    ensures ThreadsInv(Next(w, s)) && Monotone(w.jobs, Next(w, s).jobs)
  {
    hide RegionNext, WorkNext, WorkThrow, EnterPrepare, EnterIndex, Opened, SetGateOf, Enqueued, CancelRequestedFor, Claimed,
      Reconciled, ThreadsInv;
    if s.Region? {
      var j := RegionJob(w.regions[s.d]);
      if j == None { IdleRegionThreads(w, s.d, s.act); } else { WorkerRegionThreads(w, s.d, s.act, j.value); }
    } else if s.EnqueuePipeline? {
      EnqueueThreads(w, s.d, s.now);
    } else if s.RequestCancel? {
      CancelThreads(w, s.j);
    } else if s.Work? {
      if s.ok { WorkNextThreads(w); } else { WorkThrowThreads(w); }
    } else if s.WorkPrepare? {
      EnterPrepareThreads(w, s.chunks);
    } else if s.WorkIndex? {
      EnterIndexThreads(w);
    } else if s.Claim? {
      ClaimThreads(w, s.j);
    } else if s.Start? {
      StartThreads(w);
    } else if s.Stop? {
      StopThreads(w);
    } else if s.Crash? {
      CrashThreads(w);
    } else {
      hide Next, Enabled;
      ApiStepThreads(w, s);
    }
  }

  lemma SameThreads(w: World, v: World)
    requires ThreadsInv(w) && v == w.(store := v.store)
    ensures ThreadsInv(v)
  {
  }

  lemma StopThreads(w: World)
    requires ThreadsInv(w) && w.worker.Idle?
    ensures ThreadsInv(w.(worker := Down))
  {
    NoJobRegions(w);
  }

  lemma EnterPrepareThreads(w: World, chunks: A.Chunks)
    requires ThreadsInv(w) && Enabled(w, WorkPrepare(chunks))
    ensures ThreadsInv(Next(w, WorkPrepare(chunks))) && Monotone(w.jobs, Next(w, WorkPrepare(chunks)).jobs)
  {
    var j, d, v := w.worker.job, w.worker.document, Next(w, WorkPrepare(chunks));
    var r := Preparing(Some(j), w.next, true, d in w.store.docs && w.store.docs[d].active.Some?, chunks, Bind);
    hide ThreadsInv;
    EnterThreads(w, v, j, d, r);
  }

  lemma EnterIndexThreads(w: World)
    requires ThreadsInv(w) && Enabled(w, WorkIndex)
    ensures ThreadsInv(Next(w, WorkIndex)) && Monotone(w.jobs, Next(w, WorkIndex).jobs)
  {
    var j, d, v := w.worker.job, w.worker.document, Next(w, WorkIndex);
    var a := if d in w.store.docs && w.store.docs[d].active.Some? then w.store.docs[d].active.value else 0;
    hide ThreadsInv;
    EnterThreads(w, v, j, d, Rebuilding(Some(j), a, true, Attach));
  }
}
