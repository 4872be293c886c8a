/** The durable document pipeline as a protocol (app/local_compute/pipeline.py, preparation.py,
    indexing.py, documents.py, and enqueue_document_pipeline in api.py).

    A world is the two durable stores (catalog tables and artifact files) together with the control
    points of the threads that move it.  Every commit, file operation and read of the cancel flag is one
    step, so API threads, a failure or a crash can fall between any two of them.  A region is a thread
    inside `document_lock(d)`; the worker's own position outside regions is `WorkerPc`. */
module DocumentPipeline {
  import opened Wrappers
  import opened LocalJobs
  import A = ArtifactIndex

  // ---------- durable state ----------

  /** local_documents.preparation_state. */
  datatype Gate =
    | Accepted | Processing | Chunking | Validating | Failed | PreparedNotIndexed | Indexing | IndexReady

  datatype Document = Document(gate: Gate, active: Option<ArtId>, error: Option<Code>)

  datatype ArtifactRow = ArtifactRow(document: DocId, ready: bool)

  // ---------- threads ----------

  /** The commits and checkpoints of `_prepare_locked` up to promotion, in source order. */
  datatype PrepOp = SetGate(gate: Gate) | Report(stage: Stage, progress: int) | Checkpoint

  datatype PrepPhase =
    | Bind                              // attach the new artifact id to the job
    | Working(todo: seq<PrepOp>)
    | Promote                           // os.replace(staging, final)
    | Register                          // insert the artifact row, switch the document over
    | Prepared                          // last job update, then return
    | PrepFailing(code: Code)           // except: job update
    | PrepFailed(code: Code)            // except: document update, then raise

  datatype IndexPhase =
    | Attach
    | CloseGate                         // document -> INDEXING
    | CheckStart
    | ReportLoading
    | CheckModel
    | Open                              // clear both index tables
    | ReportOpen
    | Loop(processed: nat, last: int)   // checkpoint at the top of the loop
    | Embed(processed: nat, last: int)
    | CheckPage(processed: nat, last: int, vectors: seq<A.Vector>)
    | Append(processed: nat, last: int, vectors: seq<A.Vector>)
    | ReportPage(processed: nat, last: int)
    | LastCheck(last: int)
    | ReportValidating(last: int)
    | Validate(last: int)
    | MarkReady
    | OpenGate                          // artifact row and document -> INDEX_READY
    | Succeed
    | RestoreFile(code: Code)
    | RestoreGate(code: Code)
    | FailJob(code: Code)

  datatype DeletePhase = CancelJobs | RemoveTrees | RemoveRows

  /** Who holds the lock and how far it is.  `job` is the worker's pipeline job; None for the callers
      that use preparation and indexing directly. */
  datatype Region =
    | Preparing(job: Option<JobId>, artifact: ArtId, activate: bool, hadActive: bool, chunks: A.Chunks, prep: PrepPhase)
    | Rebuilding(job: Option<JobId>, artifact: ArtId, activate: bool, index: IndexPhase)
    | Deleting(delete: DeletePhase)

  datatype WorkerPc =
    | Down                                          // no worker thread
    | Idle
    | Taken(job: JobId, target: Option<DocId>)  // before the cancel check
    | Fetching(job: JobId, document: DocId)         // before documents.get
    | Deciding(job: JobId, document: DocId, gate: Gate, active: Option<ArtId>)
    | AttachReady(job: JobId, artifact: ArtId)      // case 1
    | ResetGate(job: JobId, document: DocId, artifact: ArtId)                 // case 2
    | AttachPrepared(job: JobId, document: DocId, artifact: ArtId)            // case 3, and after case 4
    | CallIndex(job: JobId, document: DocId)
    | CallPrepare(job: JobId, document: DocId)      // case 4
    | AfterPrepare(job: JobId, document: DocId, artifact: ArtId)
    | InRegion(job: JobId, document: DocId)
    | Ending(job: JobId, state: JobState, stage: Stage, error: Option<Code>)  // last update, then return
    | Catching(job: JobId, code: Code)              // except: read the job
    | CatchWrite(job: JobId, code: Code)            // except: last update, then return
    | Contained(job: JobId)                         // `_run` handles an exception out of `_process`

  /** Catalog rows and artifact files.  `removed` is history: the artifacts whose file a deletion removed. */
  datatype Store = Store(
    docs: map<DocId, Document>,
    arts: map<ArtId, ArtifactRow>,
    files: map<ArtId, A.ArtifactFile>,
    removed: set<ArtId>)

  /** `next` supplies identifiers that are never used twice.  `settled` and `escaped` are history: jobs the
      worker is done with, and jobs for which even the containment in `_run` failed. */
  datatype World = World(
    store: Store,
    jobs: Table,
    regions: map<DocId, Region>,
    worker: WorkerPc,
    next: nat,
    settled: set<JobId>,
    escaped: set<JobId>)

  const EMPTY := World(Store(map[], map[], map[], {}), map[], map[], Down, 0, {}, {})

  const MODEL := "intfloat/multilingual-e5-base"

  // ---------- the preparation script ----------

  const PERSIST_BATCH_SIZE := 256

  function PersistOps(start: nat, total: nat): seq<PrepOp>
    decreases total - start
  {
    if start >= total then
      []
    else
      var completed := if start + PERSIST_BATCH_SIZE < total then start + PERSIST_BATCH_SIZE else total;
      [Checkpoint, Report(Persisting, 70 + 18 * completed / total)] + PersistOps(start + PERSIST_BATCH_SIZE, total)
  }

  function PrepScript(total: nat): seq<PrepOp> {
    [ SetGate(Processing), Report(Extracting, 5), Checkpoint,
      Report(Cleaning, 20), Checkpoint,
      Report(Reconstructing, 30), Checkpoint,
      SetGate(Gate.Chunking), Report(Parsing, 38), Checkpoint,
      Report(Stage.Chunking, 48), Checkpoint,
      SetGate(Gate.Validating), Report(Persisting, 70) ]
    + PersistOps(0, total)
    + [Checkpoint, Report(Stage.Validating, 92), Checkpoint]
  }

  /** `round(local * 0.60)` and `min(60 + round(local * 0.40), 99)`; no multiple lands on a half. */
  function PrepProgress(local: int): int {
    (6 * Clamp(local) + 5) / 10
  }

  function IndexProgress(local: int): int {
    var p := 60 + (4 * Clamp(local) + 5) / 10;
    if p < 99 then p else 99
  }

  // ---------- small updates ----------

  function PutDoc(w: World, d: DocId, document: Document): World {
    w.(store := w.store.(docs := w.store.docs[d := document]))
  }

  function PutArt(w: World, a: ArtId, row: ArtifactRow): World {
    w.(store := w.store.(arts := w.store.arts[a := row]))
  }

  function PutFile(w: World, a: ArtId, file: A.ArtifactFile): World {
    w.(store := w.store.(files := w.store.files[a := file]))
  }

  function SetGateOf(w: World, d: DocId, gate: Gate, error: Option<Code>): World {
    if d in w.store.docs then PutDoc(w, d, w.store.docs[d].(gate := gate, error := error)) else w
  }

  function UpdateJob(w: World, job: Option<JobId>, state: JobState, stage: Stage, progress: int, error: Option<Code>): World {
    match job
    case None => w
    case Some(j) => w.(jobs := Updated(w.jobs, j, state, stage, progress, error))
  }

  function CancelSeen(w: World, job: Option<JobId>): bool {
    job.Some? && IsCancelRequested(w.jobs, job.value)
  }

  function Enter(w: World, d: DocId, r: Region): World {
    w.(regions := w.regions[d := r])
  }

  function Leave(w: World, d: DocId): World {
    w.(regions := map e | e in w.regions && e != d :: w.regions[e])
  }

  /** A region ends: the lock is released and its caller, if it is the worker, moves on. */
  function Raise(w: World, d: DocId, job: Option<JobId>, code: Code): World {
    var w' := Leave(w, d);
    match job
    case None => w'
    case Some(j) => w'.(worker := Catching(j, code))
  }

  function Settle(w: World, j: JobId): World {
    w.(worker := Idle, settled := w.settled + {j})
  }

  function FailState(code: Code): JobState {
    if code == JobCancelled then JobState.Cancelled else JobState.Failed
  }

  function FailStage(code: Code): Stage {
    if code == JobCancelled then CancelledStage else FailedStage
  }

  // ---------- steps ----------

  /** What a region does next: go on, take the vectors the embedder returned, remove some files, or
      fail with an exception that is not a cancellation. */
  datatype Act =
    | Proceed
    | Vectors(vectors: seq<A.Vector>)
    | Remove(gone: set<ArtId>)
    | Throw(code: Code)

  datatype Step =
    // API threads
    | Accept(d: DocId)
    | EnqueuePipeline(d: DocId, now: int)
    | ForceReindex(d: DocId)
    | RequestCancel(j: JobId)
    | BeginDelete(d: DocId)
    | BeginPrepare(d: DocId, chunks: A.Chunks, activate: bool)
    | BeginIndex(d: DocId, artifact: Option<ArtId>, activate: bool)
    | ActivateArtifact(d: DocId, a: ArtId)
    // the holder of document_lock(d)
    | Region(d: DocId, act: Act)
    // the worker thread outside regions
    | Start
    | Stop
    | Claim(j: JobId)
    | Work(ok: bool)
    | WorkPrepare(chunks: A.Chunks)
    | WorkIndex
    // the process
    | Crash

  // ---------- preparation ----------

  function NewFile(d: DocId, chunks: A.Chunks): A.ArtifactFile {
    A.ArtifactFile(d, chunks, map[], [], A.Unmarked)
  }

  function PrepProceed(w: World, d: DocId, r: Region): World
    requires r.Preparing?
  {
    match r.prep
    case Bind =>
      var w' := if r.job.Some? then w.(jobs := Attached(w.jobs, r.job.value, r.artifact)) else w;
      Enter(w', d, r.(prep := Working(PrepScript(|r.chunks|))))
    case Working(todo) =>
      if todo == [] then
        Enter(w, d, r.(prep := Promote))
      else
        var rest := r.(prep := Working(todo[1..]));
        (match todo[0]
         case SetGate(g) => Enter(if r.activate then SetGateOf(w, d, g, None) else w, d, rest)
         case Report(stage, p) => Enter(UpdateJob(w, r.job, Running, stage, PrepProgress(p), None), d, rest)
         case Checkpoint =>
           Enter(w, d, if CancelSeen(w, r.job) then r.(prep := PrepFailing(JobCancelled)) else rest))
    case Promote =>
      Enter(PutFile(w, r.artifact, NewFile(d, r.chunks)), d, r.(prep := Register))
    case Register =>
      var w' := PutArt(w, r.artifact, ArtifactRow(d, false));
      var w'' := if r.activate && d in w.store.docs
        then PutDoc(w', d, Document(Gate.PreparedNotIndexed, Some(r.artifact), None)) else w';
      Enter(w'', d, r.(prep := Prepared))
    case Prepared =>
      var w' := Leave(UpdateJob(w, r.job, Running, Stage.PreparedNotIndexed, 60, None), d);
      if r.job.Some? then w'.(worker := AfterPrepare(r.job.value, d, r.artifact)) else w'
    case PrepFailing(code) =>
      Enter(UpdateJob(w, r.job, FailState(code), FailStage(code), 100, Some(code)), d, r.(prep := PrepFailed(code)))
    case PrepFailed(code) =>
      Raise(if r.hadActive then w else SetGateOf(w, d, Gate.Failed, Some(code)), d, r.job, code)
  }

  function PrepThrow(w: World, d: DocId, r: Region, code: Code): World
    requires r.Preparing?
  {
    if r.prep.Bind? || r.prep.PrepFailing? || r.prep.PrepFailed? then
      Raise(w, d, r.job, code)          // outside the try block, or out of its handler
    else
      Enter(w, d, r.(prep := PrepFailing(code)))
  }

  // ---------- indexing ----------

  function ReportIndex(w: World, job: Option<JobId>, stage: Stage, local: int): World {
    UpdateJob(w, job, Running, stage, IndexProgress(local), None)
  }

  function Total(w: World, a: ArtId): nat {
    if a in w.store.files then |w.store.files[a].chunks| else 0
  }

  type BatchSize = n: nat | n >= 1 witness 1

  /** `settings.indexing_batch_size`: any number that is at least 1. */
  const BATCH_SIZE: BatchSize

  /** The loop test after a page, and the count test after the loop. */
  function AfterPage(total: nat, processed: nat, last: int): IndexPhase {
    if processed < total then Loop(processed, last)
    else if processed == total then LastCheck(last)
    else RestoreFile(PreparationFailed)
  }

  /** Enough valid vectors for a page that is not empty (an empty page leaves the loop short of the total). */
  ghost predicate PageFits(page: seq<int>, vectors: seq<A.Vector>) {
    page != [] && |vectors| == |page| && forall v | v in vectors :: A.ValidVector(v)
  }

  /** The batch transaction. */
  ghost function AppendPage(w: World, d: DocId, r: Region, processed: nat, last: int, vectors: seq<A.Vector>): World
    requires r.Rebuilding? && r.artifact in w.store.files
  {
    var file := w.store.files[r.artifact];
    var page := A.Page(file.chunks, last, BATCH_SIZE);
    if PageFits(page, vectors) then
      Enter(PutFile(w, r.artifact, A.Appended(file, A.Rows(file.chunks, page), vectors, MODEL)), d,
            r.(index := ReportPage(processed + |page|, page[|page| - 1])))
    else
      Enter(w, d, r.(index := RestoreFile(PreparationFailed)))
  }

  /** `_cancel_if_requested`. */
  predicate IsCheck(p: IndexPhase) {
    p.CheckStart? || p.CheckModel? || p.Loop? || p.CheckPage? || p.LastCheck?
  }

  function AfterCheck(p: IndexPhase): IndexPhase
    requires IsCheck(p)
  {
    match p
    case CheckStart => ReportLoading
    case CheckModel => Open
    case Loop(n, last) => Embed(n, last)
    case CheckPage(n, last, vectors) => Append(n, last, vectors)
    case LastCheck(last) => ReportValidating(last)
  }

  /** `_update_job(..., "RUNNING", ...)`. */
  predicate IsReport(p: IndexPhase) {
    p.ReportLoading? || p.ReportOpen? || p.ReportPage? || p.ReportValidating?
  }

  function ReportStage(p: IndexPhase): Stage {
    if p.ReportLoading? then LoadingEmbeddingModel else if p.ReportValidating? then ValidatingIndex else Stage.Indexing
  }

  function ReportLocal(p: IndexPhase, total: nat): int {
    match p
    case ReportLoading => 5
    case ReportPage(n, _) => if total == 0 then 10 else 10 + 80 * n / total
    case ReportValidating(_) => 94
    case _ => 10
  }

  function AfterReport(p: IndexPhase, total: nat): IndexPhase
    requires IsReport(p)
  {
    match p
    case ReportLoading => CheckModel
    case ReportOpen => AfterPage(total, 0, -1)
    case ReportPage(n, last) => AfterPage(total, n, last)
    case ReportValidating(last) => Validate(last)
  }

  /** Transactions on the artifact file. */
  ghost function IndexFileStep(w: World, d: DocId, r: Region): World
    requires r.Rebuilding?
  {
    var a := r.artifact;
    if r.index.RestoreFile? then        // best effort
      Enter(if a in w.store.files then PutFile(w, a, w.store.files[a].(mark := A.NotIndexed)) else w, d,
            r.(index := RestoreGate(r.index.code)))
    else if a !in w.store.files || |w.store.files[a].chunks| == 0 then
      Enter(w, d, r.(index := RestoreFile(PreparationFailed)))
    else
      match r.index
      case Open => Enter(PutFile(w, a, A.Cleared(w.store.files[a])), d, r.(index := ReportOpen))
      case Append(n, last, vectors) => AppendPage(w, d, r, n, last, vectors)
      case Validate(last) =>
        var ok := A.Validates(w.store.files[a], Total(w, a), MODEL);
        Enter(w, d, r.(index := if ok then MarkReady else RestoreFile(PreparationFailed)))
      case MarkReady => Enter(PutFile(w, a, w.store.files[a].(mark := A.IndexReady)), d, r.(index := OpenGate))
      case _ => w
  }

  /** The artifact row and, when it is to be activated, the document switch to INDEX_READY together. */
  function Opened(s: Store, d: DocId, a: ArtId, activate: bool): Store {
    var t := if a in s.arts then s.(arts := s.arts[a := s.arts[a].(ready := true)]) else s;
    if activate && d in s.docs then t.(docs := t.docs[d := Document(Gate.IndexReady, Some(a), None)]) else t
  }

  /** Transactions on the catalog. */
  function IndexCatalogStep(w: World, d: DocId, r: Region): World
    requires r.Rebuilding?
  {
    var a := r.artifact;
    match r.index
    case Attach =>
      Enter(if r.job.Some? then w.(jobs := Attached(w.jobs, r.job.value, a)) else w, d, r.(index := CloseGate))
    case CloseGate =>
      Enter(if r.activate then SetGateOf(w, d, Gate.Indexing, None) else w, d, r.(index := CheckStart))
    case OpenGate => Enter(w.(store := Opened(w.store, d, a, r.activate)), d, r.(index := Succeed))
    case Succeed =>
      var w' := Leave(UpdateJob(w, r.job, Succeeded, Stage.IndexReady, 100, None), d);
      if r.job.Some? then Settle(w', r.job.value) else w'
    case RestoreGate(code) =>
      Enter(if r.activate then SetGateOf(w, d, Gate.PreparedNotIndexed, Some(code)) else w, d, r.(index := FailJob(code)))
    case FailJob(code) =>
      Raise(UpdateJob(w, r.job, FailState(code), FailStage(code), 100, Some(code)), d, r.job, code)
    case _ => w
  }

  predicate IsFileStep(p: IndexPhase) {
    p.Open? || p.Append? || p.Validate? || p.MarkReady? || p.RestoreFile?
  }

  ghost function IndexProceed(w: World, d: DocId, r: Region): World
    requires r.Rebuilding?
  {
    if IsCheck(r.index) then
      Enter(w, d, r.(index := if CancelSeen(w, r.job) then RestoreFile(JobCancelled) else AfterCheck(r.index)))
    else if IsReport(r.index) then
      var total := Total(w, r.artifact);
      Enter(ReportIndex(w, r.job, ReportStage(r.index), ReportLocal(r.index, total)), d,
            r.(index := AfterReport(r.index, total)))
    else if IsFileStep(r.index) then
      IndexFileStep(w, d, r)
    else
      IndexCatalogStep(w, d, r)
  }

  function IndexThrow(w: World, d: DocId, r: Region, code: Code): World
    requires r.Rebuilding?
  {
    if r.index.Attach? || r.index.CloseGate? || r.index.RestoreGate? || r.index.FailJob? then
      Raise(w, d, r.job, code)          // outside the try block, or out of its handler
    else if r.index.RestoreFile? then     // best effort
      Enter(w, d, r.(index := RestoreGate(r.index.code)))
    else
      Enter(w, d, r.(index := RestoreFile(code)))
  }

  // ---------- deletion ----------

  function DeleteProceed(w: World, d: DocId, r: Region): World
    requires r.Deleting?
  {
    match r.delete
    case CancelJobs => Enter(w.(jobs := CancelledFor(w.jobs, d)), d, Deleting(RemoveTrees))
    case RemoveTrees =>
      Enter(RemoveFiles(w, set a | a in w.store.files && w.store.files[a].directory == d), d, Deleting(RemoveRows))
    case RemoveRows =>
      Leave(w.(jobs := DeletedFor(w.jobs, d),
               store := w.store.(
                 arts := map a | a in w.store.arts && w.store.arts[a].document != d :: w.store.arts[a],
                 docs := map e | e in w.store.docs && e != d :: w.store.docs[e])), d)
  }

  /** Part of rmtree: some files of this document's directory go. */
  function RemoveFiles(w: World, gone: set<ArtId>): World {
    w.(store := w.store.(files := map a | a in w.store.files && a !in gone :: w.store.files[a], removed := w.store.removed + gone))
  }

  // ---------- one region step ----------

  predicate ActAllowed(w: World, d: DocId, act: Act) {
    d in w.regions &&
    match act
    case Proceed => !(w.regions[d].Rebuilding? && w.regions[d].index.Embed?)
    case Vectors(_) => w.regions[d].Rebuilding? && w.regions[d].index.Embed?
    case Remove(gone) =>
      && w.regions[d] == Deleting(RemoveTrees) && gone != {}
      && forall a | a in gone :: a in w.store.files && w.store.files[a].directory == d
    case Throw(code) => code != JobCancelled
  }

  ghost function RegionNext(w: World, d: DocId, act: Act): World
    requires ActAllowed(w, d, act)
  {
    var r := w.regions[d];
    match act
    case Vectors(vs) => Enter(w, d, r.(index := CheckPage(r.index.processed, r.index.last, vs)))
    case Remove(gone) => RemoveFiles(w, gone)
    case Throw(code) =>
      (match r
       case Preparing(_, _, _, _, _, _) => PrepThrow(w, d, r, code)
       case Rebuilding(_, _, _, _) => IndexThrow(w, d, r, code)
       case Deleting(_) => Leave(w, d))
    case Proceed =>
      (match r
       case Preparing(_, _, _, _, _, _) => PrepProceed(w, d, r)
       case Rebuilding(_, _, _, _) => IndexProceed(w, d, r)
       case Deleting(_) => DeleteProceed(w, d, r))
  }

  // ---------- the worker outside regions ----------

  /** The four recovery cases of `_process`. */
  function Decide(j: JobId, d: DocId, gate: Gate, active: Option<ArtId>): WorkerPc {
    match active
    case None => CallPrepare(j, d)
    case Some(a) =>
      if gate == Gate.IndexReady then AttachReady(j, a)
      else if gate == Gate.Indexing then ResetGate(j, d, a)
      else if gate == Gate.PreparedNotIndexed then AttachPrepared(j, d, a)
      else CallPrepare(j, d)
  }

  function WorkNext(w: World): World {
    match w.worker
    case Taken(j, target) =>
      if target == None then
        w.(worker := Ending(j, JobState.Failed, FailedStage, Some(InvalidRequest)))
      else if IsCancelRequested(w.jobs, j) then
        w.(worker := Ending(j, JobState.Cancelled, CancelledStage, Some(JobCancelled)))
      else
        w.(worker := Fetching(j, target.value))
    case Fetching(j, d) =>
      if d !in w.store.docs then
        w.(worker := Ending(j, JobState.Failed, FailedStage, Some(DocumentNotFound)))
      else
        w.(worker := Deciding(j, d, w.store.docs[d].gate, w.store.docs[d].active))
    case Deciding(j, d, gate, active) => w.(worker := Decide(j, d, gate, active))
    case AttachReady(j, a) =>
      w.(jobs := Attached(w.jobs, j, a), worker := Ending(j, Succeeded, Stage.IndexReady, None))
    case ResetGate(j, d, a) => SetGateOf(w, d, Gate.PreparedNotIndexed, None).(worker := AttachPrepared(j, d, a))
    case AttachPrepared(j, d, a) => w.(jobs := Attached(w.jobs, j, a), worker := CallIndex(j, d))
    case AfterPrepare(j, d, a) =>
      w.(worker := if IsCancelRequested(w.jobs, j) then Catching(j, JobCancelled) else AttachPrepared(j, d, a))
    case Ending(j, state, stage, error) =>
      Settle(w.(jobs := Updated(w.jobs, j, state, stage, 100, error)), j)
    case Catching(j, code) =>
      if j in w.jobs && Active(w.jobs[j].state) then w.(worker := CatchWrite(j, code)) else Settle(w, j)
    case CatchWrite(j, code) =>
      Settle(w.(jobs := Updated(w.jobs, j, FailState(code), FailStage(code), 100, Some(code))), j)
    case Contained(j) =>
      var jobs' := if j in w.jobs && Active(w.jobs[j].state)
        then Updated(w.jobs, j, JobState.Failed, FailedStage, 100, Some(InternalComputeError)) else w.jobs;
      Settle(w.(jobs := jobs'), j)
    case _ => w
  }

  /** A statement of the worker raises: inside the try block its handler runs, elsewhere `_run` does. */
  function WorkThrow(w: World): World {
    match w.worker
    case Taken(j, _) => w.(worker := Contained(j))
    case Fetching(j, _) => w.(worker := Contained(j))
    case Deciding(j, _, _, _) => w.(worker := Catching(j, InternalComputeError))
    case AttachReady(j, _) => w.(worker := Catching(j, InternalComputeError))
    case ResetGate(j, _, _) => w.(worker := Catching(j, InternalComputeError))
    case AttachPrepared(j, _, _) => w.(worker := Catching(j, InternalComputeError))
    case AfterPrepare(j, _, _) => w.(worker := Catching(j, InternalComputeError))
    case Ending(j, state, _, _) =>
      w.(worker := if state == Succeeded then Catching(j, InternalComputeError) else Contained(j))
    case Catching(j, _) => w.(worker := Contained(j))
    case CatchWrite(j, _) => w.(worker := Contained(j))
    case Contained(j) => w.(worker := Idle, escaped := w.escaped + {j})
    case _ => w
  }

  predicate Outside(pc: WorkerPc) {
    !pc.Down? && !pc.Idle? && !pc.CallIndex? && !pc.CallPrepare? && !pc.InRegion?
  }

  predicate JobMatches(w: World, j: JobId, d: DocId) {
    j in w.jobs && w.jobs[j].document == Some(d)
  }

  function EnterPrepare(w: World, j: JobId, d: DocId, chunks: A.Chunks): World {
    if d !in w.store.docs then w.(worker := Catching(j, DocumentNotFound))
    else if !JobMatches(w, j, d) then w.(worker := Catching(j, InvalidRequest))
    else
      Enter(w, d, Preparing(Some(j), w.next, true, w.store.docs[d].active.Some?, chunks, Bind))
      .(worker := InRegion(j, d), next := w.next + 1)
  }

  function EnterIndex(w: World, j: JobId, d: DocId): World {
    if d !in w.store.docs then w.(worker := Catching(j, DocumentNotFound))
    else if w.store.docs[d].gate != Gate.PreparedNotIndexed && w.store.docs[d].gate != Gate.IndexReady then
      w.(worker := Catching(j, CapabilityUnavailable))
    else if w.store.docs[d].active == None then w.(worker := Catching(j, CapabilityUnavailable))
    else
      var a := w.store.docs[d].active.value;
      if a !in w.store.arts || w.store.arts[a].document != d then w.(worker := Catching(j, CapabilityUnavailable))
      else if !JobMatches(w, j, d) then w.(worker := Catching(j, InvalidRequest))
      else Enter(w, d, Rebuilding(Some(j), a, true, Attach)).(worker := InRegion(j, d))
  }

  // ---------- every step ----------

  /** The chunk rows the chunker produced: at least one, each with its own primary key. */
  ghost predicate Chunked(chunks: A.Chunks) {
    |chunks| > 0 && A.DistinctIds(chunks)
  }

  ghost predicate Enabled(w: World, s: Step) {
    match s
    case Accept(d) => d !in w.store.docs && d !in w.regions
    case EnqueuePipeline(d, _) => d in w.store.docs && d !in w.regions
    case ForceReindex(d) => d in w.store.docs && d !in w.regions
    case RequestCancel(_) => true
    case BeginDelete(d) => d in w.store.docs && d !in w.regions
    case BeginPrepare(d, chunks, _) => d in w.store.docs && d !in w.regions && Chunked(chunks)
    case BeginIndex(d, artifact, activate) =>
      && d in w.store.docs && d !in w.regions
      && (w.store.docs[d].gate == Gate.PreparedNotIndexed || w.store.docs[d].gate == Gate.IndexReady)
      && (var a := if artifact.Some? then artifact else w.store.docs[d].active;
          && a.Some? && a.value in w.store.arts && w.store.arts[a.value].document == d
          && (activate || a != w.store.docs[d].active))     // the caller's duty: never rebuild the active artifact in place
    case ActivateArtifact(d, a) =>
      && d in w.store.docs && d !in w.regions
      && a in w.store.arts && w.store.arts[a].document == d && a in w.store.files && w.store.files[a].mark == A.IndexReady
    case Region(d, act) => ActAllowed(w, d, act)
    case Start => w.worker.Down? && w.regions == map[]
    case Stop => w.worker.Idle?
    case Claim(j) => w.worker.Idle? && Oldest(w.jobs, j)
    case Work(_) => Outside(w.worker)
    case WorkPrepare(chunks) => w.worker.CallPrepare? && w.worker.document !in w.regions && Chunked(chunks)
    case WorkIndex => w.worker.CallIndex? && w.worker.document !in w.regions
    case Crash => true
  }

  ghost function Next(w: World, s: Step): World
    requires Enabled(w, s)
  {
    match s
    case Accept(d) => PutDoc(w, d, Document(Gate.Accepted, None, None))
    case EnqueuePipeline(d, now) => w.(jobs := Enqueued(w.jobs, d, w.next, now), next := w.next + 1)
    case ForceReindex(d) =>
      if w.store.docs[d].gate == Gate.IndexReady && w.store.docs[d].active.Some?
      then SetGateOf(w, d, Gate.PreparedNotIndexed, None) else w
    case RequestCancel(j) => w.(jobs := CancelRequestedFor(w.jobs, j))
    case BeginDelete(d) => Enter(w, d, Deleting(CancelJobs))
    case BeginPrepare(d, chunks, activate) =>
      Enter(w, d, Preparing(None, w.next, activate, w.store.docs[d].active.Some?, chunks, Bind)).(next := w.next + 1)
    case BeginIndex(d, artifact, activate) =>
      var a := if artifact.Some? then artifact.value else w.store.docs[d].active.value;
      Enter(w, d, Rebuilding(None, a, activate, Attach))
    case ActivateArtifact(d, a) =>
      w.(store := Opened(w.store, d, a, true))
    case Region(d, act) => RegionNext(w, d, act)
    case Start => w.(jobs := Reconciled(w.jobs), worker := Idle)
    case Stop => w.(worker := Down)
    case Claim(j) => w.(jobs := Claimed(w.jobs, j), worker := Taken(j, w.jobs[j].document))
    case Work(ok) => if ok then WorkNext(w) else WorkThrow(w)
    case WorkPrepare(chunks) => EnterPrepare(w, w.worker.job, w.worker.document, chunks)
    case WorkIndex => EnterIndex(w, w.worker.job, w.worker.document)
    case Crash => w.(worker := Down, regions := map[])
  }

  // ---------- runs ----------

  ghost predicate Valid(w: World, run: seq<Step>)
    decreases |run|
  {
    run == [] || (Enabled(w, run[0]) && Valid(Next(w, run[0]), run[1..]))
  }

  ghost function After(w: World, run: seq<Step>): World
    requires Valid(w, run)
    decreases |run|
  {
    if run == [] then w else After(Next(w, run[0]), run[1..])
  }

  ghost predicate Reachable(w: World) {
    exists run :: Valid(EMPTY, run) && After(EMPTY, run) == w
  }
}
