/** Recovery works: from wherever the worker took over a job nobody cancelled, its own undisturbed steps lead to
    SUCCEEDED and an open gate, through whichever of the four cases of `_process` the document is in, and they cannot
    do otherwise. */
module PipelineRecovery {
  import opened Wrappers
  import opened LocalJobs
  import opened DocumentPipeline
  import opened PipelineSafety
  import opened PipelineFrames
  import opened PipelineJobs
  import opened PipelineTheorems
  import opened PipelineRegions
  import opened PipelineGate
  import opened PipelineProgress
  import A = ArtifactIndex

  // ---------- being on the way to success ----------

  /** Chunks the keyset loop reaches. */
  predicate FromZero(chunks: A.Chunks) {
    forall k | k in chunks :: k >= 0
  }

  predicate OnDisk(s: Store, a: ArtId) {
    a in s.files && FromZero(s.files[a].chunks)
  }

  predicate Indexable(s: Store, d: DocId) {
    d in s.docs && s.docs[d].active.Some? && OnDisk(s, s.docs[d].active.value)
  }

  /** A document that counts on an artifact has it. */
  predicate Startable(s: Store, d: DocId) {
    && d in s.docs
    && (s.docs[d].active.Some? && (s.docs[d].gate == Gate.Indexing || s.docs[d].gate == Gate.PreparedNotIndexed) ==>
          Indexable(s, d))
  }

  predicate ReadyToIndex(s: Store, d: DocId) {
    && Indexable(s, d)
    && (s.docs[d].gate == Gate.PreparedNotIndexed || s.docs[d].gate == Gate.IndexReady)
  }

  predicate Uncancelled(jobs: Table, j: JobId, d: DocId) {
    j in jobs && !jobs[j].cancelRequested && jobs[j].document == Some(d)
  }

  predicate PrepGood(s: Store, d: DocId, a: ArtId, chunks: A.Chunks, prep: PrepPhase) {
    && FromZero(chunks)
    && match prep
       case Bind => true
       case Working(_) => true
       case Promote => true
       case Register => OnDisk(s, a)
       case Prepared => ReadyToIndex(s, d)
       case PrepFailing(_) => false
       case PrepFailed(_) => false
  }

  ghost predicate IndexGood(s: Store, d: DocId, a: ArtId, index: IndexPhase) {
    && OnDisk(s, a)
    && match index
       case Loop(n, _) => n < |s.files[a].chunks|
       case Embed(n, _) => n < |s.files[a].chunks|
       case CheckPage(_, last, vectors) => PageFits(A.Page(s.files[a].chunks, last, BATCH_SIZE), vectors)
       case Append(_, last, vectors) => PageFits(A.Page(s.files[a].chunks, last, BATCH_SIZE), vectors)
       case Succeed => GateOpen(s, d)
       case RestoreFile(_) => false
       case RestoreGate(_) => false
       case FailJob(_) => false
       case _ => true
  }

  ghost predicate RegionGood(s: Store, d: DocId, job: Option<JobId>, r: Region) {
    match r
    case Preparing(j, a, activate, _, chunks, prep) => j == job && activate && PrepGood(s, d, a, chunks, prep)
    case Rebuilding(j, a, activate, index) => j == job && activate && IndexGood(s, d, a, index)
    case Deleting(_) => false
  }

  /** The embedder answers for the page at hand. */
  ghost predicate Fitting(w: World, d: DocId, act: Act)
    requires d in w.regions
  {
    var r := w.regions[d];
    if r.Rebuilding? && r.index.Embed? then
      act.Vectors? && (r.artifact in w.store.files ==>
        PageFits(A.Page(w.store.files[r.artifact].chunks, r.index.last, BATCH_SIZE), act.vectors))
    else act == Proceed
  }

  /** What an undisturbed step of a good region leads to: a good region, or its end with its work done. */
  ghost predicate GoesWell(w: World, v: World, d: DocId, job: Option<JobId>) {
    d in w.regions && d in v.store.docs &&
    if d in v.regions then
      && v.worker == w.worker && RegionGood(v.store, d, job, v.regions[d])
      && (w.regions[d].Preparing? <==> v.regions[d].Preparing?)
    else if w.regions[d].Preparing? then
      ReadyToIndex(v.store, d)
      && if job.None? then v.worker == w.worker
         else v.worker.AfterPrepare? && v.worker.job == job.value && v.worker.document == d
    else
      GateOpen(v.store, d)
      && if job.None? then v.worker == w.worker
         else v.worker == Idle && (job.value in v.jobs ==> v.jobs[job.value].state == Succeeded)
  }

  ghost predicate RowsGo(w: World, v: World, job: Option<JobId>) {
    v.jobs.Keys == w.jobs.Keys &&
    forall j | j in w.jobs ::
      && v.jobs[j].cancelRequested == w.jobs[j].cancelRequested && v.jobs[j].document == w.jobs[j].document
      && (job != Some(j) ==> v.jobs[j] == w.jobs[j])
  }

  // ---------- preparing ----------

  lemma RowsSame(w: World, v: World, job: Option<JobId>)
    requires v.jobs == w.jobs
    ensures RowsGo(w, v, job)
  {
  }

  lemma RowReplaced(w: World, v: World, j: JobId, row: Job)
    requires j in w.jobs && v.jobs == w.jobs[j := row]
    requires row.cancelRequested == w.jobs[j].cancelRequested && row.document == w.jobs[j].document
    ensures RowsGo(w, v, Some(j))
  {
    assert v.jobs.Keys == w.jobs.Keys;
  }

  lemma RowsUpdated(
    w: World, job: Option<JobId>, state: JobState, stage: Stage, progress: int, error: Option<Code>)
    ensures var v := UpdateJob(w, job, state, stage, progress, error);
      RowsGo(w, v, job) && (job.Some? && job.value in v.jobs ==> v.jobs[job.value].state == state)
  {
    var v := UpdateJob(w, job, state, stage, progress, error);
    hide RowsGo, Clamp;
    if job.Some? && job.value in w.jobs {
      RowReplaced(w, v, job.value, v.jobs[job.value]);
    } else {
      RowsSame(w, v, job);
    }
  }

  lemma RowsAttached(w: World, v: World, j: JobId, a: ArtId)
    requires v.jobs == Attached(w.jobs, j, a)
    ensures RowsGo(w, v, Some(j))
  {
    hide RowsGo;
    if j in w.jobs { RowReplaced(w, v, j, v.jobs[j]); } else { RowsSame(w, v, Some(j)); }
  }

  lemma WorkingGoes(w: World, d: DocId, job: Option<JobId>)
    requires d in w.regions && w.regions[d].Preparing? && RegionGood(w.store, d, job, w.regions[d]) && d in w.store.docs
    requires w.regions[d].prep.Working? && !CancelSeen(w, job)
    ensures var v := PrepProceed(w, d, w.regions[d]); GoesWell(w, v, d, job) && RowsGo(w, v, job)
  {
    var r, v := w.regions[d], PrepProceed(w, d, w.regions[d]);
    var todo := r.prep.todo;
    hide RowsGo, FromZero, PrepProgress, CancelSeen;
    if todo != [] && todo[0].Report? {
      UpdateJobShape(w, job, Running, todo[0].stage, PrepProgress(todo[0].progress), None);
      RowsUpdated(w, job, Running, todo[0].stage, PrepProgress(todo[0].progress), None);
      hide UpdateJob;
      RowsBefore(w, UpdateJob(w, job, Running, todo[0].stage, PrepProgress(todo[0].progress), None), v, job);
    } else {
      RowsSame(w, v, job);
    }
  }

  /** Only the jobs of a world matter to its rows. */
  lemma RowsBefore(w: World, u: World, v: World, job: Option<JobId>)
    requires RowsGo(w, u, job) && v.jobs == u.jobs
    ensures RowsGo(w, v, job)
  {
  }

  lemma PrepGoes(w: World, d: DocId, job: Option<JobId>)
    requires d in w.regions && w.regions[d].Preparing? && RegionGood(w.store, d, job, w.regions[d]) && d in w.store.docs
    requires !CancelSeen(w, job)
    ensures var v := PrepProceed(w, d, w.regions[d]); GoesWell(w, v, d, job) && RowsGo(w, v, job)
  {
    var r, v := w.regions[d], PrepProceed(w, d, w.regions[d]);
    hide RowsGo, CancelSeen, PrepScript, Attached;
    match r.prep
    case Working(_) => WorkingGoes(w, d, job); hide GoesWell, PrepProceed;
    case Bind => if job.Some? { RowsAttached(w, v, job.value, r.artifact); } else { RowsSame(w, v, job); }
    case Promote => RowsSame(w, v, job);
    case Register => RowsSame(w, v, job);
    case Prepared =>
      UpdateJobShape(w, job, Running, Stage.PreparedNotIndexed, 60, None);
      RowsUpdated(w, job, Running, Stage.PreparedNotIndexed, 60, None);
      hide UpdateJob;
      RowsBefore(w, UpdateJob(w, job, Running, Stage.PreparedNotIndexed, 60, None), v, job);
  }

  // ---------- rebuilding ----------

  lemma CheckGoes(w: World, d: DocId, job: Option<JobId>)
    requires d in w.regions && w.regions[d].Rebuilding? && RegionGood(w.store, d, job, w.regions[d]) && d in w.store.docs
    requires !CancelSeen(w, job) && IsCheck(w.regions[d].index)
    ensures var v := IndexProceed(w, d, w.regions[d]); GoesWell(w, v, d, job) && RowsGo(w, v, job)
  {
    hide IndexFileStep, IndexCatalogStep;
  }

  lemma CatalogGoes(w: World, d: DocId, job: Option<JobId>)
    requires d in w.regions && w.regions[d].Rebuilding? && RegionGood(w.store, d, job, w.regions[d]) && d in w.store.docs
    requires var p := w.regions[d].index; !IsCheck(p) && !IsReport(p) && !IsFileStep(p) && !p.Embed?
    ensures var v := IndexCatalogStep(w, d, w.regions[d]); GoesWell(w, v, d, job) && RowsGo(w, v, job)
  {
    var r, v := w.regions[d], IndexCatalogStep(w, d, w.regions[d]);
    hide RowsGo, Attached, FromZero;
    match r.index
    case Attach => if job.Some? { RowsAttached(w, v, job.value, r.artifact); } else { RowsSame(w, v, job); }
    case CloseGate => RowsSame(w, v, job);
    case OpenGate => RowsSame(w, v, job);
    case Succeed =>
      UpdateJobShape(w, job, Succeeded, Stage.IndexReady, 100, None);
      RowsUpdated(w, job, Succeeded, Stage.IndexReady, 100, None);
      hide UpdateJob;
      RowsBefore(w, UpdateJob(w, job, Succeeded, Stage.IndexReady, 100, None), v, job);
  }

  /** With no negative chunk index the counts of the loop are those of the whole table. */
  lemma CountsFit(file: A.ArtifactFile, n: nat, last: int)
    requires A.PrefixIndexed(file, n, last, MODEL) && FromZero(file.chunks)
    ensures n <= |file.chunks|
    ensures n < |file.chunks| ==> A.Page(file.chunks, last, BATCH_SIZE) != []
    ensures n + |A.Page(file.chunks, last, BATCH_SIZE)| <= |file.chunks|
  {
    A.PrefixBounds(file, n, last, MODEL);
    A.OrderCovers(file.chunks);
    A.PageIsNextSlice(file.chunks, n, last, BATCH_SIZE);
  }

  lemma StoredChunks(w: World, a: ArtId)
    requires StoresInv(w) && a in w.store.files
    ensures |w.store.files[a].chunks| > 0
  {
    assert FileOk(w.store.files[a]);
  }

  /** What a report of progress, or the embedder, finds in the file. */
  lemma LoopFacts(w: World, d: DocId)
    requires StoresInv(w) && d in w.regions && w.regions[d].Rebuilding? && OnDisk(w.store, w.regions[d].artifact)
    ensures var file, index := w.store.files[w.regions[d].artifact], w.regions[d].index;
      && |file.chunks| > 0
      && (index.ReportPage? ==> index.processed <= |file.chunks|)
      && (index.Embed? && index.processed < |file.chunks| ==> A.Page(file.chunks, index.last, BATCH_SIZE) != [])
  {
    var r := w.regions[d];
    StoredChunks(w, r.artifact);
    PhaseAt(w, d);
    hide StoresInv, A.PrefixIndexed, FromZero;
    if r.index.ReportPage? || r.index.Embed? {
      CountsFit(w.store.files[r.artifact], r.index.processed, r.index.last);
    }
  }

  lemma ReportGoes(w: World, d: DocId, job: Option<JobId>)
    requires StoresInv(w) && d in w.regions && w.regions[d].Rebuilding? && RegionGood(w.store, d, job, w.regions[d])
    requires IsReport(w.regions[d].index) && d in w.store.docs
    ensures var v := IndexProceed(w, d, w.regions[d]); GoesWell(w, v, d, job) && RowsGo(w, v, job)
  {
    hide StoresInv;
    LoopFacts(w, d);
    hide FromZero, IndexFileStep, IndexCatalogStep, ReportLocal, A.Page, PageFits;
  }

  lemma VectorsGo(w: World, d: DocId, job: Option<JobId>, act: Act)
    requires d in w.regions && w.regions[d].Rebuilding? && RegionGood(w.store, d, job, w.regions[d]) && d in w.store.docs
    requires w.regions[d].index.Embed? && Fitting(w, d, act)
    ensures ActAllowed(w, d, act)
    ensures var v := RegionNext(w, d, act); GoesWell(w, v, d, job) && RowsGo(w, v, job)
  {
    hide A.Page, PageFits, IndexProceed, PrepProceed, DeleteProceed;
  }

  lemma OpenGoes(w: World, d: DocId, job: Option<JobId>)
    requires d in w.regions && w.regions[d].Rebuilding? && RegionGood(w.store, d, job, w.regions[d]) && d in w.store.docs
    requires w.regions[d].index.Open? && |w.store.files[w.regions[d].artifact].chunks| > 0
    ensures var v := IndexFileStep(w, d, w.regions[d]); GoesWell(w, v, d, job) && RowsGo(w, v, job)
  {
    hide AppendPage;
  }

  lemma AppendGoes(w: World, d: DocId, job: Option<JobId>)
    requires d in w.regions && w.regions[d].Rebuilding? && RegionGood(w.store, d, job, w.regions[d]) && d in w.store.docs
    requires w.regions[d].index.Append? && |w.store.files[w.regions[d].artifact].chunks| > 0
    ensures var v := IndexFileStep(w, d, w.regions[d]); GoesWell(w, v, d, job) && RowsGo(w, v, job)
  {
    hide A.Page, A.Rows, PageFits, A.WithEmbeddings;
  }

  lemma MarkGoes(w: World, d: DocId, job: Option<JobId>)
    requires d in w.regions && w.regions[d].Rebuilding? && RegionGood(w.store, d, job, w.regions[d]) && d in w.store.docs
    requires w.regions[d].index.Validate? || w.regions[d].index.MarkReady?
    requires var file := w.store.files[w.regions[d].artifact];
      |file.chunks| > 0 && (w.regions[d].index.Validate? ==> A.Validates(file, |file.chunks|, MODEL))
    ensures var v := IndexFileStep(w, d, w.regions[d]); GoesWell(w, v, d, job) && RowsGo(w, v, job)
  {
    hide AppendPage, A.Validates;
  }

  lemma ValidateGoes(w: World, d: DocId)
    requires StoresInv(w) && d in w.regions && w.regions[d].Rebuilding? && w.regions[d].index.Validate?
    ensures var a := w.regions[d].artifact;
      a in w.store.files && A.Validates(w.store.files[a], |w.store.files[a].chunks|, MODEL)
  {
    RegionAt(w, d);
    var r := w.regions[d];
    assert FileOk(w.store.files[r.artifact]);
    A.FullPrefixIsComplete(w.store.files[r.artifact], r.index.last, MODEL);
  }

  lemma GoodFile(s: Store, d: DocId, job: Option<JobId>, r: Region)
    requires RegionGood(s, d, job, r) && r.Rebuilding?
    ensures OnDisk(s, r.artifact) && !r.index.RestoreFile?
  {
  }

  lemma FileGoes(w: World, d: DocId, job: Option<JobId>)
    requires StoresInv(w) && d in w.regions && w.regions[d].Rebuilding? && RegionGood(w.store, d, job, w.regions[d])
    requires IsFileStep(w.regions[d].index) && d in w.store.docs
    ensures var v := IndexFileStep(w, d, w.regions[d]); GoesWell(w, v, d, job) && RowsGo(w, v, job)
  {
    hide StoresInv, IndexFileStep, A.Validates, RegionGood, GoesWell, RowsGo;
    var r := w.regions[d];
    GoodFile(w.store, d, job, r);
    StoredChunks(w, r.artifact);
    if r.index.Open? {
      OpenGoes(w, d, job);
    } else if r.index.Append? {
      AppendGoes(w, d, job);
    } else {
      if r.index.Validate? { ValidateGoes(w, d); }
      MarkGoes(w, d, job);
    }
  }

  lemma RebuildGoes(w: World, d: DocId, job: Option<JobId>)
    requires StoresInv(w) && d in w.regions && w.regions[d].Rebuilding? && RegionGood(w.store, d, job, w.regions[d])
    requires !CancelSeen(w, job) && !w.regions[d].index.Embed? && d in w.store.docs
    ensures var v := IndexProceed(w, d, w.regions[d]); GoesWell(w, v, d, job) && RowsGo(w, v, job)
  {
    hide StoresInv, IndexFileStep, IndexCatalogStep, RegionGood, GoesWell, RowsGo, CancelSeen;
    var p := w.regions[d].index;
    if IsCheck(p) { CheckGoes(w, d, job); }
    else if IsReport(p) { ReportGoes(w, d, job); }
    else if IsFileStep(p) { FileGoes(w, d, job); }
    else { CatalogGoes(w, d, job); }
  }

  /** Whoever holds the lock, for a job or not: an undisturbed step of a good region goes well. */
  lemma RegionGoes(w: World, d: DocId, job: Option<JobId>, act: Act)
    requires StoresInv(w) && d in w.regions && RegionGood(w.store, d, job, w.regions[d]) && d in w.store.docs
    requires !CancelSeen(w, job) && Fitting(w, d, act)
    ensures ActAllowed(w, d, act)
    ensures var v := RegionNext(w, d, act); GoesWell(w, v, d, job) && RowsGo(w, v, job)
  {
    hide StoresInv, CancelSeen, GoesWell, RowsGo;
    if w.regions[d].Preparing? {
      PrepGoes(w, d, job);
    } else if w.regions[d].index.Embed? {
      VectorsGo(w, d, job, act);
      hide RegionNext;
    } else {
      RebuildGoes(w, d, job);
    }
    hide IndexProceed, PrepProceed;
  }

  // ---------- the worker on its way ----------

  ghost predicate OnTrack(w: World, j: JobId, d: DocId) {
    && Uncancelled(w.jobs, j, d) && d in w.store.docs
    && (!w.worker.InRegion? ==> d !in w.regions)
    && match w.worker
       case Taken(i, target) => i == j && target == Some(d) && Startable(w.store, d)
       case Fetching(i, e) => i == j && e == d && Startable(w.store, d)
       case Deciding(i, e, gate, active) =>
         i == j && e == d && gate == w.store.docs[d].gate && active == w.store.docs[d].active && Startable(w.store, d)
       case AttachReady(i, _) => i == j && GateOpen(w.store, d)
       case ResetGate(i, e, _) => i == j && e == d && Indexable(w.store, d)
       case AttachPrepared(i, e, _) => i == j && e == d && ReadyToIndex(w.store, d)
       case CallIndex(i, e) => i == j && e == d && ReadyToIndex(w.store, d)
       case CallPrepare(i, e) => i == j && e == d
       case AfterPrepare(i, e, _) => i == j && e == d && ReadyToIndex(w.store, d)
       case InRegion(i, e) => i == j && e == d && d in w.regions && RegionGood(w.store, d, Some(j), w.regions[d])
       case Ending(i, state, _, _) => i == j && state == Succeeded && GateOpen(w.store, d)
       case _ => false
  }

  predicate Done(w: World, j: JobId, d: DocId) {
    w.worker.Idle? && j in w.jobs && w.jobs[j].state == Succeeded && GateOpen(w.store, d)
  }

  /** A step of the worker in which nothing raises, the chunker numbers from zero, and the embedder answers. */
  ghost predicate Undisturbed(w: World, s: Step) {
    && Enabled(w, s) && WorkerStep(w, s)
    && match s
       case Work(ok) => ok
       case WorkPrepare(chunks) => FromZero(chunks)
       case Region(d, act) => Fitting(w, d, act)
       case _ => true
  }

  lemma OutsideGoes(w: World, j: JobId, d: DocId)
    requires OnTrack(w, j, d) && Outside(w.worker)
    ensures OnTrack(WorkNext(w), j, d) || Done(WorkNext(w), j, d)
  {
  }

  lemma EnterPrepareGoes(w: World, j: JobId, d: DocId, chunks: A.Chunks)
    requires OnTrack(w, j, d) && w.worker.CallPrepare? && FromZero(chunks)
    ensures OnTrack(EnterPrepare(w, j, d, chunks), j, d)
  {
  }

  lemma EnterIndexGoes(w: World, j: JobId, d: DocId)
    requires StoresInv(w) && OnTrack(w, j, d) && w.worker.CallIndex?
    ensures OnTrack(EnterIndex(w, j, d), j, d)
  {
    assert DocOk(w.store, d);
    hide StoresInv;
  }

  lemma TrackRegion(w: World, j: JobId, d: DocId)
    requires OnTrack(w, j, d) && w.worker.InRegion?
    ensures w.worker == InRegion(j, d) && d in w.regions && RegionGood(w.store, d, Some(j), w.regions[d]) && d in w.store.docs
    ensures !CancelSeen(w, Some(j)) && Uncancelled(w.jobs, j, d)
  {
  }

  lemma BackOnTrack(w: World, v: World, j: JobId, d: DocId)
    requires w.worker == InRegion(j, d) && Uncancelled(w.jobs, j, d)
    requires GoesWell(w, v, d, Some(j)) && RowsGo(w, v, Some(j))
    ensures OnTrack(v, j, d) || Done(v, j, d)
  {
    hide RegionGood;
  }

  /** The worker's step is one of its region exactly when it is in one. */
  lemma WhichStep(w: World, s: Step)
    requires Inv(w) && Enabled(w, s) && WorkerStep(w, s)
    ensures s.Region? <==> w.worker.InRegion?
    ensures s.Region? ==> w.worker.document == s.d
  {
    if s.Region? { assert RegionJobOk(w.jobs, w.worker, s.d, w.regions[s.d]); }
    hide StoresInv;
  }

  /** On the way to success every undisturbed step of the worker leads on, or to the end. */
  lemma StepGoes(w: World, s: Step, j: JobId, d: DocId)
    requires Inv(w) && OnTrack(w, j, d) && Undisturbed(w, s)
    ensures OnTrack(Next(w, s), j, d) || Done(Next(w, s), j, d)
  {
    WhichStep(w, s);
    UndisturbedIs(w, s);
    hide StoresInv, ThreadsInv, Done, OnTrack, RegionNext, WorkNext, EnterPrepare, EnterIndex, Next, Enabled, Undisturbed,
      Fitting, ActAllowed, FromZero;
    if s.Region? {
      RegionStepGoes(w, s.act, j, d);
    } else if s.Work? {
      OutsideGoes(w, j, d);
    } else {
      TrackAt(w, j, d);
      if s.WorkPrepare? { EnterPrepareGoes(w, j, d, s.chunks); } else { EnterIndexGoes(w, j, d); }
    }
  }

  lemma UndisturbedIs(w: World, s: Step)
    requires Undisturbed(w, s)
    ensures s.Region? || s.Work? || s.WorkPrepare? || s.WorkIndex?
    ensures s.Region? ==> ActAllowed(w, s.d, s.act) && Fitting(w, s.d, s.act) && Next(w, s) == RegionNext(w, s.d, s.act)
    ensures s.Work? ==> Outside(w.worker) && Next(w, s) == WorkNext(w)
    ensures s.WorkPrepare? ==>
      w.worker.CallPrepare? && FromZero(s.chunks) && Next(w, s) == EnterPrepare(w, w.worker.job, w.worker.document, s.chunks)
    ensures s.WorkIndex? ==> w.worker.CallIndex? && Next(w, s) == EnterIndex(w, w.worker.job, w.worker.document)
  {
    hide RegionNext, WorkNext, EnterPrepare, EnterIndex, Fitting, FromZero, Chunked;
  }

  lemma TrackAt(w: World, j: JobId, d: DocId)
    requires OnTrack(w, j, d) && (w.worker.CallPrepare? || w.worker.CallIndex?)
    ensures w.worker.job == j && w.worker.document == d
  {
  }

  lemma RegionStepGoes(w: World, act: Act, j: JobId, d: DocId)
    requires Inv(w) && OnTrack(w, j, d) && w.worker.InRegion? && w.worker.document in w.regions
    requires Fitting(w, w.worker.document, act) && ActAllowed(w, w.worker.document, act)
    ensures w.worker.document == d
    ensures var v := RegionNext(w, d, act); OnTrack(v, j, d) || Done(v, j, d)
  {
    TrackRegion(w, j, d);
    hide OnTrack, Done, GoesWell, RowsGo, RegionGood, CancelSeen, RegionNext, Fitting, ActAllowed, StoresInv, ThreadsInv;
    RegionGoes(w, d, Some(j), act);
    BackOnTrack(w, RegionNext(w, d, act), j, d);
  }

  const SOME_VECTOR := A.Vector(A.EMBEDDING_DIMENSION, true, 1.0, 0)

  /** An act that fits: there is always one. */
  ghost function FittingAct(w: World, d: DocId): Act
    requires d in w.regions
  {
    var r := w.regions[d];
    if r.Rebuilding? && r.index.Embed? then
      Vectors(if r.artifact in w.store.files
              then seq(|A.Page(w.store.files[r.artifact].chunks, r.index.last, BATCH_SIZE)|, _ => SOME_VECTOR) else [])
    else Proceed
  }

  lemma VectorsFit(page: seq<int>)
    requires page != []
    ensures PageFits(page, seq(|page|, _ => SOME_VECTOR))
  {
    assert A.ValidVector(SOME_VECTOR);
  }

  lemma FittingActFits(w: World, d: DocId, job: Option<JobId>)
    requires StoresInv(w) && d in w.regions && RegionGood(w.store, d, job, w.regions[d])
    ensures Fitting(w, d, FittingAct(w, d))
  {
    var r := w.regions[d];
    if r.Rebuilding? && r.index.Embed? {
      LoopFacts(w, d);
      hide StoresInv, A.Page, PageFits;
      VectorsFit(A.Page(w.store.files[r.artifact].chunks, r.index.last, BATCH_SIZE));
    }
  }

  ghost function UndisturbedStep(w: World): Step {
    if w.worker.InRegion? && w.worker.document in w.regions
    then Step.Region(w.worker.document, FittingAct(w, w.worker.document))
    else if w.worker.CallPrepare? then WorkPrepare(SOME_CHUNKS)
    else if w.worker.CallIndex? then WorkIndex
    else Work(true)
  }

  lemma SomeChunksFit()
    ensures Chunked(SOME_CHUNKS) && FromZero(SOME_CHUNKS)
  {
  }

  lemma OutsideCanGo(w: World, j: JobId, d: DocId)
    requires OnTrack(w, j, d) && !w.worker.InRegion?
    ensures Undisturbed(w, UndisturbedStep(w))
  {
    SomeChunksFit();
    hide Startable, ReadyToIndex, Indexable, FromZero, Chunked, Next;
  }

  lemma RegionCanGo(w: World, j: JobId, d: DocId)
    requires w.worker == InRegion(j, d) && d in w.regions && RegionJob(w.regions[d]) == Some(j)
    requires Fitting(w, d, FittingAct(w, d)) && ActAllowed(w, d, FittingAct(w, d))
    ensures Undisturbed(w, UndisturbedStep(w))
  {
    hide Fitting, FittingAct, ActAllowed;
  }

  /** And the worker always has one. */
  lemma TrackCanGo(w: World, j: JobId, d: DocId)
    requires Inv(w) && OnTrack(w, j, d)
    ensures Undisturbed(w, UndisturbedStep(w))
  {
    if w.worker.InRegion? {
      TrackRegion(w, j, d);
      WorkerRegion(w);
      hide StoresInv, ThreadsInv, OnTrack, RegionNext, Fitting, FittingAct, ActAllowed, RegionGood, GoesWell, RowsGo,
        Undisturbed, UndisturbedStep, CancelSeen;
      FittingActFits(w, d, Some(j));
      RegionGoes(w, d, Some(j), FittingAct(w, d));
      RegionCanGo(w, j, d);
    } else {
      hide Inv, Undisturbed, UndisturbedStep;
      OutsideCanGo(w, j, d);
    }
  }

  // ---------- to the end ----------

  /** A run of the worker alone, undisturbed. */
  ghost predicate UndisturbedRun(w: World, run: seq<Step>)
    decreases |run|
  {
    run == [] || (Undisturbed(w, run[0]) && UndisturbedRun(Next(w, run[0]), run[1..]))
  }

  lemma {:induction false} UndisturbedIsValid(w: World, run: seq<Step>)
    requires UndisturbedRun(w, run)
    ensures Valid(w, run)
    decreases |run|
  {
    hide Enabled, Next, WorkerStep, Fitting;
    if run != [] { UndisturbedIsValid(Next(w, run[0]), run[1..]); }
  }

  lemma DoneIsOver(w: World, s: Step, j: JobId, d: DocId)
    requires Inv(w) && Done(w, j, d)
    ensures !Undisturbed(w, s)
  {
    if Undisturbed(w, s) {
      BusyWorker(w, s);
      assert false;
    }
  }

  /** Every undisturbed run of the worker, whatever chunks and vectors it meets, stays on the way to success. */
  lemma {:induction false} RunStaysOnTrack(w: World, run: seq<Step>, j: JobId, d: DocId)
    requires Inv(w) && OnTrack(w, j, d) && UndisturbedRun(w, run)
    ensures Valid(w, run)
    ensures var v := After(w, run); Inv(v) && (OnTrack(v, j, d) || Done(v, j, d))
    decreases |run|
  {
    UndisturbedIsValid(w, run);
    if run != [] {
      var v := Next(w, run[0]);
      StepGoes(w, run[0], j, d);
      StepInv(w, run[0]);
      hide Inv, OnTrack, Done, Next, Enabled, WorkerStep, Fitting;
      if OnTrack(v, j, d) {
        RunStaysOnTrack(v, run[1..], j, d);
      } else if run[1..] != [] {
        DoneIsOver(v, run[1], j, d);
      }
    }
  }

  /** Whatever state a crash, a failure or a re-index request left the document in: every undisturbed run of the worker
      over an uncancelled job it has just taken, with any chunk tables numbered from zero and any fitting vectors, that
      cannot go on has ended with the job SUCCEEDED and the document INDEX_READY, provided the file of an artifact the
      document counts on is still there and has no negative chunk index. */
  lemma EveryRunSucceeds(w: World, run: seq<Step>, j: JobId, d: DocId)
    requires Reachable(w) && w.worker == Taken(j, Some(d)) && Uncancelled(w.jobs, j, d)
    requires Startable(w.store, d) && d !in w.regions && UndisturbedRun(w, run)
    ensures Valid(w, run)
    ensures (forall s :: !Undisturbed(After(w, run), s)) ==> Done(After(w, run), j, d)
  {
    ReachableInv(w);
    RunStaysOnTrack(w, run, j, d);
    var v := After(w, run);
    if OnTrack(v, j, d) { TrackCanGo(v, j, d); }
  }

  lemma UndisturbedFirst(w: World, s: Step, rest: seq<Step>)
    requires Undisturbed(w, s) && UndisturbedRun(Next(w, s), rest) && Valid(Next(w, s), rest)
    ensures UndisturbedRun(w, [s] + rest) && Valid(w, [s] + rest) && After(w, [s] + rest) == After(Next(w, s), rest)
  {
    hide Enabled, Next, WorkerStep, Fitting;
    assert ([s] + rest)[1..] == rest;
  }

  lemma {:induction false} TrackCompletes(w: World, j: JobId, d: DocId) returns (run: seq<Step>)
    requires Inv(w) && OnTrack(w, j, d)
    ensures UndisturbedRun(w, run) && Valid(w, run) && Done(After(w, run), j, d)
    decreases RankOf(w).phase, RankOf(w).inner
  {
    var s := UndisturbedStep(w);
    TrackCanGo(w, j, d);
    StepGoes(w, s, j, d);
    StepInv(w, s);
    WorkerAdvances(w, s);
    hide Inv, OnTrack, Done, UndisturbedStep, Enabled, Next, WorkerStep, RankOf, Fitting;
    var rest: seq<Step> := [];
    if !Done(Next(w, s), j, d) {
      rest := TrackCompletes(Next(w, s), j, d);
    }
    UndisturbedFirst(w, s, rest);
    run := [s] + rest;
  }

  /** And there is such a run, of finitely many steps. */
  lemma RecoverySucceeds(w: World, j: JobId, d: DocId) returns (run: seq<Step>)
    requires Reachable(w) && w.worker == Taken(j, Some(d)) && Uncancelled(w.jobs, j, d)
    requires Startable(w.store, d) && d !in w.regions
    ensures UndisturbedRun(w, run) && Valid(w, run) && Done(After(w, run), j, d)
  {
    ReachableInv(w);
    run := TrackCompletes(w, j, d);
  }
}
