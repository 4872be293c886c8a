/** Cancellation over runs of the document pipeline: an accepted cancel can be lost exactly when the worker is past the
    attempt's last certain checkpoint; at the fetch of a document that is not indexed it takes another thread to open
    the gate in between. */
module PipelineCancel {
  import opened Wrappers
  import opened LocalJobs
  import opened DocumentPipeline
  import opened PipelineSafety
  import opened PipelineFrames
  import opened PipelineJobs
  import opened PipelineTheorems
  import opened PipelineRegions
  import opened PipelineGate
  import opened PipelineProgress
  import opened PipelineRecovery
  import A = ArtifactIndex

  /** Behind the last checkpoint of a rebuild. */
  predicate PastIndexCheck(index: IndexPhase) {
    index.ReportValidating? || index.Validate? || index.MarkReady? || index.OpenGate? || index.Succeed?
  }

  /** It is not certain that the worker will look at this job's flag again in this attempt: it has passed the check at
      the start of `_process` and may still find an open gate (recovery case 1), or it has passed the last check of
      indexing. */
  predicate PastLastCheck(w: World, j: JobId) {
    match w.worker
    case Fetching(i, _) => i == j
    case Deciding(i, d, gate, active) => i == j && Decide(i, d, gate, active).AttachReady?
    case AttachReady(i, _) => i == j
    case Ending(i, state, _, _) => i == j && state == Succeeded
    case InRegion(i, d) =>
      i == j && d in w.regions && w.regions[d].Rebuilding? && PastIndexCheck(w.regions[d].index)
    case _ => false
  }

  /** The cancel is certain to win: flagged, not succeeded, not past the last checkpoint; or the row is gone. */
  ghost predicate Doomed(w: World, j: JobId) {
    && j < w.next
    && (j in w.jobs ==>
          w.jobs[j].cancelRequested && w.jobs[j].state != Succeeded && !PastLastCheck(w, j))
  }

  lemma DoomedIndex(w: World, d: DocId, j: JobId)
    requires Inv(w) && Doomed(w, j) && j in w.jobs && w.worker == InRegion(j, d) && d in w.regions
    requires w.regions[d].Rebuilding? && w.regions[d].job == Some(j) && !w.regions[d].index.Embed?
    ensures Doomed(IndexProceed(w, d, w.regions[d]), j)
  {
    hide Inv;
    var r := w.regions[d];
    IndexQuietOrCatalog(w, d, j);
    if IsFileStep(r.index) {
      DoomedFile(w, d, j);
    } else if IsCheck(r.index) || IsReport(r.index) {
      DoomedQuiet(w, d, j);
    } else {
      DoomedCatalog(w, d, j);
    }
  }

  lemma DoomedFile(w: World, d: DocId, j: JobId)
    requires Doomed(w, j) && j in w.jobs && w.worker == InRegion(j, d) && d in w.regions
    requires w.regions[d].Rebuilding? && w.regions[d].job == Some(j) && IsFileStep(w.regions[d].index)
    ensures Doomed(IndexProceed(w, d, w.regions[d]), j)
  {
    var r := w.regions[d];
    FileFrame(w, d, r);
    FilePhase(w, d, r);
    hide IndexFileStep;
  }

  lemma DoomedQuiet(w: World, d: DocId, j: JobId)
    requires Doomed(w, j) && j in w.jobs && w.worker == InRegion(j, d) && d in w.regions
    requires w.regions[d].Rebuilding? && w.regions[d].job == Some(j)
    requires IsCheck(w.regions[d].index) || IsReport(w.regions[d].index)
    requires RowMoved(w, IndexProceed(w, d, w.regions[d]), j)
    ensures Doomed(IndexProceed(w, d, w.regions[d]), j)
  {
    hide IndexFileStep, IndexCatalogStep;
  }

  lemma DoomedCatalog(w: World, d: DocId, j: JobId)
    requires Doomed(w, j) && j in w.jobs && w.worker == InRegion(j, d) && d in w.regions
    requires w.regions[d].Rebuilding? && w.regions[d].job == Some(j) && !w.regions[d].index.Embed?
    requires !IsCheck(w.regions[d].index) && !IsReport(w.regions[d].index) && !IsFileStep(w.regions[d].index)
    requires RowMoved(w, IndexProceed(w, d, w.regions[d]), j)
    ensures Doomed(IndexProceed(w, d, w.regions[d]), j)
  {
    hide IndexFileStep;
  }

  lemma IndexQuietOrCatalog(w: World, d: DocId, j: JobId)
    requires Inv(w) && w.worker == InRegion(j, d) && d in w.regions
    requires w.regions[d].Rebuilding? && w.regions[d].job == Some(j) && !w.regions[d].index.Embed?
    ensures RowMoved(w, IndexProceed(w, d, w.regions[d]), j)
  {
    var r := w.regions[d];
    if IsCheck(r.index) || IsReport(r.index) || IsFileStep(r.index) {
      IndexQuietThreads(w, d, j);
    } else {
      IndexCatalogThreads(w, d, j);
    }
  }

  lemma FilePhase(w: World, d: DocId, r: Region)
    requires r.Rebuilding? && IsFileStep(r.index) && !PastIndexCheck(r.index)
    ensures var v := IndexFileStep(w, d, r);
      d in v.regions && v.regions[d].Rebuilding? && !PastIndexCheck(v.regions[d].index)
  {
  }

  lemma DoomedPrep(w: World, d: DocId, act: Act, j: JobId)
    requires Inv(w) && Doomed(w, j) && j in w.jobs && w.worker == InRegion(j, d) && ActAllowed(w, d, act)
    requires w.regions[d].Preparing? && w.regions[d].job == Some(j)
    ensures Doomed(RegionNext(w, d, act), j)
  {
    WorkerRegionThreads(w, d, act, j);
    WorkerRegionNext(w, d, act);
    PrepWorker(w, d, act, j);
    hide RegionNext, Inv;
  }

  /** Preparation never reaches SUCCEEDED, and leaves the worker where it will look at the flag again. */
  lemma PrepWorker(w: World, d: DocId, act: Act, j: JobId)
    requires ActAllowed(w, d, act) && w.regions[d].Preparing? && w.regions[d].job == Some(j)
    requires w.worker == InRegion(j, d)
    ensures var v := RegionNext(w, d, act);
      && !PastLastCheck(v, j)
      && (j in v.jobs && j in w.jobs && w.jobs[j].state != Succeeded ==> v.jobs[j].state != Succeeded)
  {
    if act.Proceed? {
      if w.regions[d].prep.Working? {
        hide PrepProgress;
      } else {
        hide PrepScript;
      }
    }
  }

  lemma DoomedIndexThrow(w: World, d: DocId, r: Region, code: Code, j: JobId)
    requires Doomed(w, j) && w.worker == InRegion(j, d) && d in w.regions && w.regions[d] == r && r.Rebuilding? && r.job == Some(j)
    ensures Doomed(IndexThrow(w, d, r, code), j)
  {
    RaiseShape(w, d, r.job, code);
    hide Raise;
  }

  lemma DoomedVectors(w: World, d: DocId, r: Region, vectors: seq<A.Vector>, j: JobId)
    requires Doomed(w, j) && w.worker == InRegion(j, d) && r.Rebuilding? && r.index.Embed?
    ensures Doomed(Enter(w, d, r.(index := CheckPage(r.index.processed, r.index.last, vectors))), j)
  {
  }

  lemma DoomedIndexOther(w: World, d: DocId, act: Act, j: JobId)
    requires Inv(w) && Doomed(w, j) && j in w.jobs && w.worker == InRegion(j, d) && ActAllowed(w, d, act)
    requires w.regions[d].Rebuilding? && w.regions[d].job == Some(j) && !act.Proceed?
    ensures Doomed(RegionNext(w, d, act), j)
  {
    hide Inv, IndexThrow, Doomed;
    if act.Throw? {
      DoomedIndexThrow(w, d, w.regions[d], act.code, j);
    } else {
      DoomedVectors(w, d, w.regions[d], act.vectors, j);
    }
  }

  /** A step somewhere else: the worker and its region are as they were, the row can only become cancelled. */
  lemma DoomedElsewhere(w: World, v: World, j: JobId)
    requires Doomed(w, j) && w.next <= v.next && v.worker == w.worker && Monotone(w.jobs, v.jobs)
    requires j in v.jobs ==> j in w.jobs && (v.jobs[j].state == Succeeded ==> w.jobs[j].state == Succeeded)
    requires w.worker.InRegion? ==>
      w.worker.document in w.regions && w.worker.document in v.regions
      && v.regions[w.worker.document] == w.regions[w.worker.document]
    ensures Doomed(v, j)
  {
  }

  lemma DoomedRegion(w: World, d: DocId, act: Act, j: JobId)
    requires Inv(w) && Doomed(w, j) && j in w.jobs && ActAllowed(w, d, act)
    ensures Doomed(RegionNext(w, d, act), j)
  {
    var r, v := w.regions[d], RegionNext(w, d, act);
    if RegionJob(r) == Some(j) {
      assert RegionJobOk(w.jobs, w.worker, d, r);
      hide Inv, Doomed;
      if r.Preparing? { DoomedPrep(w, d, act, j); }
      else if act.Proceed? { DoomedIndex(w, d, j); }
      else { DoomedIndexOther(w, d, act, j); }
    } else if RegionJob(r).Some? {
      var i := RegionJob(r).value;
      assert RegionJobOk(w.jobs, w.worker, d, r);
      WorkerRegionThreads(w, d, act, i);
      WorkerRegionNext(w, d, act);
      WorkerStaysHis(w, d, act, i);
      hide RegionNext;
    } else {
      IdleRegionThreads(w, d, act);
      IdleRegionShape(w, d, act);
      WorkerRegionNext(w, d, act);
      hide RegionNext;
      DoomedElsewhere(w, v, j);
    }
  }

  lemma WorkerStaysHis(w: World, d: DocId, act: Act, i: JobId)
    requires ActAllowed(w, d, act) && RegionJob(w.regions[d]) == Some(i) && w.worker == InRegion(i, d)
    ensures var v := RegionNext(w, d, act); JobOf(v.worker) == Some(i) || v.worker.Idle?
  {
    RegionFrame(w, d, act);
    hide RegionNext;
  }

  lemma IdleRegionShape(w: World, d: DocId, act: Act)
    requires ActAllowed(w, d, act) && RegionJob(w.regions[d]) == None
    ensures var v := RegionNext(w, d, act);
      && v.worker == w.worker && SameElsewhere(w, v, d)
      && forall j | j in v.jobs :: j in w.jobs && (v.jobs[j].state == Succeeded ==> w.jobs[j].state == Succeeded)
  {
    if !w.regions[d].Deleting? { RegionFrame(w, d, act); hide RegionNext; }
  }

  lemma DoomedThrow(w: World, j: JobId)
    requires Doomed(w, j) && j in w.jobs && Outside(w.worker)
    ensures Doomed(WorkThrow(w), j)
  {
  }

  lemma DoomedOn(w: World, j: JobId)
    requires Doomed(w, j) && j in w.jobs && Outside(w.worker)
    requires !(w.worker.Ending? || w.worker.CatchWrite? || w.worker.Contained?)
    ensures Doomed(WorkNext(w), j)
  {
  }

  lemma DoomedEnd(w: World, j: JobId)
    requires Doomed(w, j) && j in w.jobs
    requires w.worker.Ending? || w.worker.CatchWrite? || w.worker.Contained?
    ensures Doomed(WorkNext(w), j)
  {
  }

  lemma DoomedWork(w: World, ok: bool, j: JobId)
    requires Inv(w) && Doomed(w, j) && j in w.jobs && Outside(w.worker)
    ensures Doomed(if ok then WorkNext(w) else WorkThrow(w), j)
  {
    if ok {
      hide Inv, Doomed, WorkNext, WorkThrow, Outside;
      if w.worker.Ending? || w.worker.CatchWrite? || w.worker.Contained? { DoomedEnd(w, j); } else { DoomedOn(w, j); }
    } else {
      DoomedThrow(w, j);
    }
  }

  lemma DoomedLifecycle(w: World, s: Step, j: JobId)
    requires Doomed(w, j) && j in w.jobs && Enabled(w, s)
    requires s.Start? || s.Stop? || s.Claim? || s.Crash?
    requires Monotone(w.jobs, Next(w, s).jobs) && w.next <= Next(w, s).next
    ensures Doomed(Next(w, s), j)
  {
  }

  /** The worker enters a region at its beginning, or is turned away. */
  lemma DoomedEntry(w: World, s: Step, j: JobId)
    requires Doomed(w, j) && j in w.jobs && Enabled(w, s)
    requires s.WorkPrepare? || s.WorkIndex?
    requires Monotone(w.jobs, Next(w, s).jobs) && w.next <= Next(w, s).next
    ensures Doomed(Next(w, s), j)
  {
    EnterApart(w, s);
    EnterWorker(w, s);
    hide Next, Enabled, Monotone;
  }

  lemma StepDoomed(w: World, s: Step, j: JobId)
    requires Inv(w) && Doomed(w, j) && Enabled(w, s)
    ensures Doomed(Next(w, s), j)
  {
    StepNext(w, s);
    if j !in w.jobs {
      StepKeepsAbsent(w, s, j);
      hide Next, Enabled, Inv, PastLastCheck;
    } else if s.Region? {
      hide Inv, Doomed, RegionNext;
      DoomedRegion(w, s.d, s.act, j);
    } else if s.Work? {
      hide Inv, Doomed, WorkNext, WorkThrow;
      DoomedWork(w, s.ok, j);
    } else if s.Start? || s.Stop? || s.Claim? || s.Crash? || s.WorkPrepare? || s.WorkIndex? {
      StepThreads(w, s);
      hide Inv, Next, Enabled, Doomed;
      if s.WorkPrepare? || s.WorkIndex? { DoomedEntry(w, s, j); } else { DoomedLifecycle(w, s, j); }
    } else {
      hide Inv, Next, Enabled, Doomed;
      DoomedOther(w, s, j);
    }
  }

  lemma DoomedOther(w: World, s: Step, j: JobId)
    requires Inv(w) && Doomed(w, j) && Enabled(w, s) && j in w.jobs
    requires s.Accept? || s.EnqueuePipeline? || s.ForceReindex? || s.RequestCancel? || s.BeginDelete?
      || s.BeginPrepare? || s.BeginIndex? || s.ActivateArtifact?
    ensures Doomed(Next(w, s), j)
  {
    StepThreads(w, s);
    StepNext(w, s);
    OtherRows(w, s, j);
    StepApart(w, s);
    if w.worker.InRegion? { WorkerRegion(w); }
    hide StoresInv, ThreadsInv, Next, Enabled, Doomed;
    DoomedElsewhere(w, Next(w, s), j);
  }

  lemma OtherRows(w: World, s: Step, j: JobId)
    requires Enabled(w, s) && j in w.jobs
    requires s.Accept? || s.EnqueuePipeline? || s.ForceReindex? || s.RequestCancel? || s.BeginDelete?
      || s.BeginPrepare? || s.BeginIndex? || s.ActivateArtifact?
    ensures var v := Next(w, s);
      v.worker == w.worker && (j in v.jobs ==> (v.jobs[j].state == Succeeded ==> w.jobs[j].state == Succeeded))
  {
    hide Opened, Chunked;
  }

  lemma {:induction false} RunDoomed(w: World, run: seq<Step>, j: JobId)
    requires Inv(w) && Doomed(w, j) && Valid(w, run)
    ensures Doomed(After(w, run), j)
    decreases |run|
  {
    if run != [] {
      StepInv(w, run[0]);
      StepDoomed(w, run[0], j);
      RunDoomed(Next(w, run[0]), run[1..], j);
    }
  }

  /** An accepted cancel is never lost: once the flag is up and the worker is not past the attempt's last
      checkpoint for the job, no continuation (progress updates that overwrite the state, crashes, restarts,
      new attempts) ends with the job SUCCEEDED. */
  lemma CancelNeverLost(w: World, run: seq<Step>, j: JobId)
    requires Reachable(w) && j in w.jobs && w.jobs[j].cancelRequested
    requires w.jobs[j].state != Succeeded && !PastLastCheck(w, j) && Valid(w, run)
    ensures j in After(w, run).jobs ==> After(w, run).jobs[j].state != Succeeded
  {
    ReachableInv(w);
    RunDoomed(w, run, j);
  }

  // ---------- the window behind the checkpoint ----------

  /** Past the last checkpoint with nothing left to stop it; before the document is fetched that takes an open gate. */
  predicate InWindow(w: World, j: JobId) {
    && PastLastCheck(w, j)
    && (w.worker.Fetching? ==>
          && w.worker.document in w.store.docs
          && w.store.docs[w.worker.document].gate == Gate.IndexReady
          && w.store.docs[w.worker.document].active.Some?)
  }

  function StepsLeft(w: World): nat {
    match w.worker
    case Fetching(_, _) => 4
    case Deciding(_, _, _, _) => 3
    case AttachReady(_, _) => 2
    case InRegion(_, d) =>
      if d !in w.regions || !w.regions[d].Rebuilding? then 0
      else if w.regions[d].index.ReportValidating? then 5
      else if w.regions[d].index.Validate? then 4
      else if w.regions[d].index.MarkReady? then 3
      else if w.regions[d].index.OpenGate? then 2
      else 1
    case _ => 1
  }

  function WindowStep(w: World): Step {
    if w.worker.InRegion? then Step.Region(w.worker.document, Proceed) else Work(true)
  }

  lemma WindowMoves(w: World, j: JobId)
    requires Inv(w) && j in w.jobs && InWindow(w, j)
    ensures Enabled(w, WindowStep(w)) && StepsLeft(w) > 0
    ensures var v := Next(w, WindowStep(w));
      j in v.jobs && if StepsLeft(w) == 1 then v.jobs[j].state == Succeeded else InWindow(v, j) && StepsLeft(v) < StepsLeft(w)
  {
    if w.worker.InRegion? {
      WindowRegion(w, j);
    }
  }

  function NextInWindow(index: IndexPhase): IndexPhase
    requires PastIndexCheck(index) && !index.Succeed?
  {
    match index
    case ReportValidating(last) => Validate(last)
    case Validate(_) => MarkReady
    case MarkReady => OpenGate
    case OpenGate => Succeed
  }

  /** Behind the checkpoint the rebuild validates, marks, and opens the gate. */
  lemma WindowPhase(w: World, d: DocId)
    requires StoresInv(w) && d in w.regions && w.regions[d].Rebuilding?
    requires PastIndexCheck(w.regions[d].index) && !w.regions[d].index.Succeed?
    ensures var v := IndexProceed(w, d, w.regions[d]);
      && v.worker == w.worker && v.jobs.Keys == w.jobs.Keys
      && d in v.regions && v.regions[d] == w.regions[d].(index := NextInWindow(w.regions[d].index))
  {
    hide StoresInv, IndexFileStep;
    if w.regions[d].index.Validate? || w.regions[d].index.MarkReady? {
      WindowFile(w, d);
      hide IndexCatalogStep;
    } else {
      WindowCatalog(w, d);
    }
  }

  lemma WindowCatalog(w: World, d: DocId)
    requires d in w.regions && w.regions[d].Rebuilding?
    requires w.regions[d].index.ReportValidating? || w.regions[d].index.OpenGate?
    ensures var v := IndexProceed(w, d, w.regions[d]);
      && v.worker == w.worker && v.jobs.Keys == w.jobs.Keys
      && d in v.regions && v.regions[d] == w.regions[d].(index := NextInWindow(w.regions[d].index))
  {
    hide IndexFileStep;
  }

  lemma WindowFile(w: World, d: DocId)
    requires StoresInv(w) && d in w.regions && w.regions[d].Rebuilding?
    requires w.regions[d].index.Validate? || w.regions[d].index.MarkReady?
    ensures var v := IndexFileStep(w, d, w.regions[d]);
      && v.worker == w.worker && v.jobs == w.jobs
      && d in v.regions && v.regions[d] == w.regions[d].(index := NextInWindow(w.regions[d].index))
  {
    hide StoresInv, A.Validates, A.PrefixIndexed, AppendPage;
    FileThere(w, d);
  }

  lemma FileThere(w: World, d: DocId)
    requires StoresInv(w) && d in w.regions && w.regions[d].Rebuilding?
    requires w.regions[d].index.Validate? || w.regions[d].index.MarkReady?
    ensures var a := w.regions[d].artifact;
      && a in w.store.files && |w.store.files[a].chunks| > 0
      && (w.regions[d].index.Validate? ==> A.Validates(w.store.files[a], |w.store.files[a].chunks|, MODEL))
  {
    RegionAt(w, d);
    var r := w.regions[d];
    assert FileOk(w.store.files[r.artifact]);
    if r.index.Validate? { A.FullPrefixIsComplete(w.store.files[r.artifact], r.index.last, MODEL); }
  }

  /** One step closer to SUCCEEDED, or there. */
  predicate WindowOn(w: World, v: World, j: JobId) {
    j in v.jobs && if StepsLeft(w) == 1 then v.jobs[j].state == Succeeded else InWindow(v, j) && StepsLeft(v) < StepsLeft(w)
  }

  lemma WindowCloser(w: World, v: World, d: DocId, j: JobId)
    requires w.worker == InRegion(j, d) && v.worker == w.worker && j in v.jobs && d in w.regions && d in v.regions
    requires w.regions[d].Rebuilding? && PastIndexCheck(w.regions[d].index) && !w.regions[d].index.Succeed?
    requires v.regions[d] == w.regions[d].(index := NextInWindow(w.regions[d].index))
    ensures WindowOn(w, v, j)
  {
  }

  lemma WindowRegion(w: World, j: JobId)
    requires Inv(w) && j in w.jobs && InWindow(w, j) && w.worker.InRegion?
    ensures Enabled(w, WindowStep(w)) && WindowOn(w, Next(w, WindowStep(w)), j)
  {
    var d := w.worker.document;
    OtherRegionsIdle(w, d, j);
    WindowIs(w, d);
    hide StoresInv, ThreadsInv, IndexProceed, RegionJobOk, WindowStep, Enabled, Next;
    if w.regions[d].index.Succeed? {
      WindowEnds(w, d, j);
      hide InWindow;
    } else {
      WindowPhase(w, d);
      WindowCloser(w, IndexProceed(w, d, w.regions[d]), d, j);
      hide WindowOn;
    }
  }

  lemma WindowIs(w: World, d: DocId)
    requires d in w.regions && w.regions[d].Rebuilding? && PastIndexCheck(w.regions[d].index)
    requires w.worker.InRegion? && w.worker.document == d
    ensures Enabled(w, WindowStep(w)) && Next(w, WindowStep(w)) == IndexProceed(w, d, w.regions[d])
  {
    hide IndexProceed;
  }

  lemma WindowEnds(w: World, d: DocId, j: JobId)
    requires d in w.regions && w.regions[d].Rebuilding? && w.regions[d].job == Some(j) && j in w.jobs
    requires w.regions[d].index.Succeed?
    ensures var v := IndexProceed(w, d, w.regions[d]); j in v.jobs && v.jobs[j].state == Succeeded
  {
    hide IndexFileStep;
  }

  /** The window is real: from any point of it the worker's own next steps end with the cancelled job SUCCEEDED. */
  lemma {:induction false} WindowLoses(w: World, j: JobId) returns (v: World)
    requires Inv(w) && j in w.jobs && InWindow(w, j)
    ensures Leads(w, v) && j in v.jobs && v.jobs[j].state == Succeeded
    ensures w.jobs[j].cancelRequested ==> v.jobs[j].cancelRequested
    decreases StepsLeft(w)
  {
    WindowMoves(w, j);
    StepInv(w, WindowStep(w));
    var u := Next(w, WindowStep(w));
    if StepsLeft(w) == 1 {
      LeadsSelf(u);
      v := u;
    } else {
      v := WindowLoses(u, j);
    }
    LeadsStep(w, WindowStep(w), v);
  }

  // ---------- at the fetch ----------

  /** The worker has passed the check at the start of `_process` and is about to read a document whose gate is closed. */
  ghost predicate Waiting(w: World, j: JobId, d: DocId) {
    && w.worker == Fetching(j, d) && j < w.next && !GateOpen(w.store, d)
    && (j in w.jobs ==> w.jobs[j].cancelRequested && w.jobs[j].state != Succeeded)
  }

  lemma FetchClosed(w: World, ok: bool, j: JobId, d: DocId)
    requires Waiting(w, j, d)
    ensures Doomed(if ok then WorkNext(w) else WorkThrow(w), j)
  {
  }

  /** A step of others leaves the worker where it is, and the row at most newly cancelled. */
  lemma OthersAtFetch(w: World, s: Step, j: JobId, d: DocId)
    requires Inv(w) && Waiting(w, j, d) && Enabled(w, s) && !s.Work? && !s.Crash?
    ensures var v := Next(w, s);
      v.worker == w.worker
      && (j in v.jobs ==> j in w.jobs && (v.jobs[j].state == Succeeded ==> w.jobs[j].state == Succeeded))
  {
    if s.Region? {
      assert RegionJobOk(w.jobs, w.worker, s.d, w.regions[s.d]);
      hide Inv, RegionNext;
      IdleRegionShape(w, s.d, s.act);
    } else {
      hide Inv;
    }
  }

  lemma WaitingStep(w: World, s: Step, j: JobId, d: DocId)
    requires Inv(w) && Waiting(w, j, d) && Enabled(w, s) && !Opens(w, s, d)
    ensures Waiting(Next(w, s), j, d) || Doomed(Next(w, s), j)
  {
    if s.Work? {
      FetchClosed(w, s.ok, j, d);
      hide WorkNext, WorkThrow, Inv;
    } else if s.Crash? {
      hide Inv;
    } else {
      OthersAtFetch(w, s, j, d);
      StepThreads(w, s);
      StepNext(w, s);
      GateStaysClosed(w, s, d);
      hide Inv, Next, Enabled, GateOpen, Opens;
    }
  }

  /** While the worker is about to fetch `d` for `j`, nobody opens the gate of `d`. */
  ghost predicate NobodyOpens(w: World, run: seq<Step>, j: JobId, d: DocId)
    requires Valid(w, run)
    decreases |run|
  {
    run == [] || ((w.worker == Fetching(j, d) ==> !Opens(w, run[0], d)) && NobodyOpens(Next(w, run[0]), run[1..], j, d))
  }

  lemma {:induction false} RunFromFetch(w: World, run: seq<Step>, j: JobId, d: DocId)
    requires Inv(w) && Valid(w, run) && NobodyOpens(w, run, j, d) && Waiting(w, j, d)
    ensures j in After(w, run).jobs ==> After(w, run).jobs[j].state != Succeeded
    decreases |run|
  {
    if run != [] {
      var v := Next(w, run[0]);
      AtFetch(w, j, d);
      WaitingStep(w, run[0], j, d);
      StepInv(w, run[0]);
      if Doomed(v, j) {
        RunDoomed(v, run[1..], j);
      } else {
        hide Inv, Next, Enabled, Opens, Waiting, Doomed;
        RunFromFetch(v, run[1..], j, d);
      }
    }
  }

  lemma AtFetch(w: World, j: JobId, d: DocId)
    requires Waiting(w, j, d)
    ensures w.worker == Fetching(j, d)
  {
  }

  /** A cancel accepted while the worker is about to fetch a document whose gate is closed is not lost either, unless
      somebody else opens that gate before the fetch. */
  lemma CancelAtFetch(w: World, run: seq<Step>, j: JobId, d: DocId)
    requires Reachable(w) && j in w.jobs && w.jobs[j].cancelRequested && w.jobs[j].state != Succeeded
    requires w.worker == Fetching(j, d) && !GateOpen(w.store, d) && Valid(w, run) && NobodyOpens(w, run, j, d)
    ensures j in After(w, run).jobs ==> After(w, run).jobs[j].state != Succeeded
  {
    ReachableInv(w);
    RunFromFetch(w, run, j, d);
  }

  // ---------- how others open the gate first ----------

  lemma {:induction false} RunThenLeads(w: World, run: seq<Step>, v: World)
    requires Valid(w, run) && Leads(After(w, run), v)
    ensures Leads(w, v)
    decreases |run|
  {
    if run != [] {
      hide Enabled, Next, Leads;
      RunThenLeads(Next(w, run[0]), run[1..], v);
      LeadsStep(w, run[0], v);
    }
  }

  lemma LeadsTrans(w: World, u: World, v: World)
    requires Leads(w, u) && Leads(u, v)
    ensures Leads(w, v)
  {
    var run :| Valid(w, run) && After(w, run) == u;
    RunThenLeads(w, run, v);
  }

  lemma ThrowKeeps(w: World, d: DocId)
    requires d in w.regions && RegionJob(w.regions[d]) == None
    ensures var s := Step.Region(d, Throw(InternalComputeError));
      && Enabled(w, s)
      && var v := Next(w, s);
         && v.worker == w.worker && v.jobs == w.jobs && v.store == w.store && v.next == w.next
         && (d in v.regions ==> RegionJob(v.regions[d]) == None)
  {
  }

  /** A holder that keeps failing lets go without having changed anything. */
  lemma {:induction false} Evicted(w: World, d: DocId) returns (v: World)
    requires Inv(w) && d in w.regions && RegionJob(w.regions[d]) == None
    ensures Leads(w, v) && Inv(v) && d !in v.regions && v.worker == w.worker && v.jobs == w.jobs && v.store == w.store
    decreases RegionRank(w, d, w.regions[d]).phase, RegionRank(w, d, w.regions[d]).inner
  {
    var s := Step.Region(d, Throw(InternalComputeError));
    ThrowKeeps(w, d);
    StepInv(w, s);
    HolderAdvances(w, d, s.act);
    var u := Next(w, s);
    hide Inv, Leads, Enabled, RegionJob, Next;
    if d in u.regions {
      v := Evicted(u, d);
    } else {
      LeadsSelf(u);
      v := u;
    }
    LeadsStep(w, s, v);
  }

  /** A good region of some other thread can do all its work. */
  lemma {:induction false} RegionCompletes(w: World, d: DocId) returns (v: World)
    requires Inv(w) && d in w.regions && RegionGood(w.store, d, None, w.regions[d]) && d in w.store.docs
    ensures Leads(w, v) && Inv(v) && d !in v.regions && v.worker == w.worker && v.jobs == w.jobs && d in v.store.docs
    ensures if w.regions[d].Preparing? then ReadyToIndex(v.store, d) else GateOpen(v.store, d)
    decreases RegionRank(w, d, w.regions[d]).phase, RegionRank(w, d, w.regions[d]).inner
  {
    var act := FittingAct(w, d);
    var s := Step.Region(d, act);
    FittingActFits(w, d, None);
    RegionGoes(w, d, None, act);
    var u := Next(w, s);
    StepInv(w, s);
    HolderAdvances(w, d, act);
    OneStep(w, u, d);
    hide Inv, Leads, RegionGood, Next, RegionNext, FittingAct, Fitting, GoesWell, RowsGo;
    if d in u.regions {
      v := RegionCompletes(u, d);
    } else {
      LeadsSelf(u);
      v := u;
    }
    LeadsStep(w, s, v);
  }

  lemma OneStep(w: World, u: World, d: DocId)
    requires GoesWell(w, u, d, None) && RowsGo(w, u, None)
    ensures u.worker == w.worker && u.jobs == w.jobs && d in u.store.docs
    ensures d in u.regions ==> RegionGood(u.store, d, None, u.regions[d]) && (w.regions[d].Preparing? <==> u.regions[d].Preparing?)
    ensures d !in u.regions ==> if w.regions[d].Preparing? then ReadyToIndex(u.store, d) else GateOpen(u.store, d)
  {
    hide RegionGood;
  }

  /** While the worker waits, other threads prepare and index the document. */
  lemma OthersOpen(w: World, d: DocId) returns (v: World)
    requires Inv(w) && !w.worker.InRegion?
    ensures Leads(w, v) && Inv(v) && v.worker == w.worker && v.jobs == w.jobs && GateOpen(v.store, d)
  {
    var one := LockFreed(w, d);
    var two := DocumentThere(one, d);
    var three := PreparedByOthers(two, d);
    v := IndexedByOthers(three, d);
    hide Leads, Inv, ReadyToIndex, GateOpen;
    LeadsTrans(two, three, v);
    LeadsTrans(one, two, v);
    LeadsTrans(w, one, v);
  }

  lemma LockFreed(w: World, d: DocId) returns (v: World)
    requires Inv(w) && !w.worker.InRegion?
    ensures Leads(w, v) && Inv(v) && d !in v.regions && v.worker == w.worker && v.jobs == w.jobs
  {
    if d in w.regions {
      assert RegionJobOk(w.jobs, w.worker, d, w.regions[d]);
      hide Inv;
      v := Evicted(w, d);
    } else {
      LeadsSelf(w);
      v := w;
    }
  }

  lemma DocumentThere(w: World, d: DocId) returns (v: World)
    requires Inv(w) && d !in w.regions
    ensures Leads(w, v) && Inv(v) && d !in v.regions && v.worker == w.worker && v.jobs == w.jobs && d in v.store.docs
  {
    LeadsSelf(w);
    v := w;
    if d !in w.store.docs {
      v := Next(w, Accept(d));
      StepInv(w, Accept(d));
      hide Inv, Leads;
      LeadsSelf(v);
      LeadsStep(w, Accept(d), v);
    }
  }

  lemma PreparedByOthers(w: World, d: DocId) returns (v: World)
    requires Inv(w) && d !in w.regions && d in w.store.docs
    ensures Leads(w, v) && Inv(v) && d !in v.regions && v.worker == w.worker && v.jobs == w.jobs && ReadyToIndex(v.store, d)
  {
    var s := BeginPrepare(d, SOME_CHUNKS, true);
    SomeChunksFit();
    StepInv(w, s);
    hide Inv, Leads;
    v := RegionCompletes(Next(w, s), d);
    LeadsStep(w, s, v);
  }

  lemma IndexedByOthers(w: World, d: DocId) returns (v: World)
    requires Inv(w) && d !in w.regions && ReadyToIndex(w.store, d)
    ensures Leads(w, v) && Inv(v) && v.worker == w.worker && v.jobs == w.jobs && GateOpen(v.store, d)
  {
    var s := BeginIndex(d, None, true);
    assert DocOk(w.store, d);
    StepInv(w, s);
    hide Inv, Leads;
    v := RegionCompletes(Next(w, s), d);
    LeadsStep(w, s, v);
  }

  /** Past the last certain checkpoint the cancel can be lost: by the worker alone behind an open gate, and at the fetch
      of a document with a closed one when another thread's indexing opens it first. */
  lemma CancelCanBeLost(w: World, j: JobId) returns (v: World)
    requires Inv(w) && j in w.jobs && PastLastCheck(w, j)
    ensures Leads(w, v) && j in v.jobs && v.jobs[j].state == Succeeded
  {
    if w.worker.Fetching? {
      var u := OthersOpen(w, w.worker.document);
      hide Inv, Leads;
      v := WindowLoses(u, j);
      LeadsTrans(w, u, v);
    } else {
      v := WindowLoses(w, j);
    }
  }

  /** The exact condition, over all continuations. */
  lemma CancelLostIff(w: World, j: JobId)
    requires Reachable(w) && j in w.jobs && w.jobs[j].cancelRequested && w.jobs[j].state != Succeeded
    ensures (exists v :: Leads(w, v) && j in v.jobs && v.jobs[j].state == Succeeded) <==> PastLastCheck(w, j)
  {
    ReachableInv(w);
    hide Inv;
    if PastLastCheck(w, j) {
      var v := CancelCanBeLost(w, j);
    } else {
      forall v | Leads(w, v) && j in v.jobs ensures v.jobs[j].state != Succeeded {
        var run :| Valid(w, run) && After(w, run) == v;
        CancelNeverLost(w, run, j);
      }
    }
  }
}
