/** What one step of a lock holder touches: its own region, its own job, and of the stores only what its phase writes. */
module PipelineFrames {
  import opened Wrappers
  import opened LocalJobs
  import opened DocumentPipeline
  import opened PipelineSafety
  import A = ArtifactIndex

  /** The worker has its job back from the region `r`. */
  predicate Released(v: World, r: Region, j: JobId) {
    || (v.worker.Idle? && j in v.settled)
    || (v.worker.Catching? && v.worker.job == j)
    || (r.Preparing? && v.worker.AfterPrepare? && v.worker.job == j)
  }

  /** The region `r` at `d` goes on as what it is, or ends and hands its job back; nothing happens elsewhere. */
  ghost predicate Framed(w: World, v: World, d: DocId, r: Region) {
    && v.next == w.next && v.escaped == w.escaped && SameElsewhere(w, v, d)
    && (RegionJob(r) == None ==> v.jobs == w.jobs && v.worker == w.worker && v.settled == w.settled)
    && if d in v.regions then
         && RegionJob(v.regions[d]) == RegionJob(r) && v.worker == w.worker && v.settled == w.settled
         && (v.regions[d].Preparing? <==> r.Preparing?) && (v.regions[d].Rebuilding? <==> r.Rebuilding?)
       else
         RegionJob(r).Some? ==> Released(v, r, RegionJob(r).value)
  }

  lemma Entered(w: World, u: World, d: DocId, r: Region, next: Region)
    requires u == w.(store := u.store, jobs := u.jobs) && (RegionJob(r) == None ==> u.jobs == w.jobs)
    requires RegionJob(next) == RegionJob(r) && (next.Preparing? <==> r.Preparing?) && (next.Rebuilding? <==> r.Rebuilding?)
    ensures var v := Enter(u, d, next); Framed(w, v, d, r) && d in v.regions && v.store == u.store && v.jobs == u.jobs
  {
  }

  lemma Raised(w: World, u: World, d: DocId, r: Region, code: Code)
    requires u == w.(store := u.store, jobs := u.jobs) && (RegionJob(r) == None ==> u.jobs == w.jobs)
    ensures var v := Raise(u, d, RegionJob(r), code); Framed(w, v, d, r) && v.store == u.store
  {
    RaiseShape(u, d, RegionJob(r), code);
    hide Raise;
  }

  // ---------- preparing ----------

  /** The stores after a step of a preparation. */
  function PrepStore(w: World, d: DocId, r: Region, act: Act): Store
    requires r.Preparing?
  {
    if !act.Proceed? then w.store
    else match r.prep
      case Working(todo) =>
        if todo != [] && todo[0].SetGate? && r.activate then SetGateOf(w, d, todo[0].gate, None).store else w.store
      case Promote => PutFile(w, r.artifact, NewFile(d, r.chunks)).store
      case Register => Registered(w.store, d, r.artifact, r.activate)
      case PrepFailed(code) => if r.hadActive then w.store else SetGateOf(w, d, Gate.Failed, Some(code)).store
      case _ => w.store
  }

  lemma WorkingFrame(w: World, d: DocId, r: Region)
    requires d in w.regions && w.regions[d] == r && r.Preparing? && r.prep.Working?
    ensures var v := PrepProceed(w, d, r); Framed(w, v, d, r) && v.store == PrepStore(w, d, r, Proceed)
  {
    hide Framed, Enter;
    var todo := r.prep.todo;
    if todo == [] {
      Entered(w, w, d, r, r.(prep := Promote));
    } else {
      var rest := r.(prep := Working(todo[1..]));
      match todo[0]
      case SetGate(g) =>
        SetGateShape(w, d, g, None);
        hide SetGateOf;
        Entered(w, if r.activate then SetGateOf(w, d, g, None) else w, d, r, rest);
      case Report(stage, p) =>
        UpdateJobShape(w, r.job, Running, stage, PrepProgress(p), None);
        hide UpdateJob, PrepProgress;
        Entered(w, UpdateJob(w, r.job, Running, stage, PrepProgress(p), None), d, r, rest);
      case Checkpoint =>
        Entered(w, w, d, r, if CancelSeen(w, r.job) then r.(prep := PrepFailing(JobCancelled)) else rest);
    }
  }

  lemma PrepEndFrame(w: World, d: DocId, r: Region)
    requires d in w.regions && w.regions[d] == r && r.Preparing? && (r.prep.Prepared? || r.prep.PrepFailed?)
    ensures var v := PrepProceed(w, d, r); Framed(w, v, d, r) && v.store == PrepStore(w, d, r, Proceed)
  {
    match r.prep
    case Prepared =>
      UpdateJobShape(w, r.job, Running, Stage.PreparedNotIndexed, 60, None);
      hide UpdateJob;
    case PrepFailed(code) =>
      SetGateShape(w, d, Gate.Failed, Some(code));
      hide SetGateOf, Framed, Raise;
      Raised(w, if r.hadActive then w else SetGateOf(w, d, Gate.Failed, Some(code)), d, r, code);
  }

  lemma PrepProceedFrame(w: World, d: DocId, r: Region)
    requires d in w.regions && w.regions[d] == r && r.Preparing?
    ensures var v := PrepProceed(w, d, r); Framed(w, v, d, r) && v.store == PrepStore(w, d, r, Proceed)
  {
    hide Framed, Enter;
    match r.prep
    case Working(_) => WorkingFrame(w, d, r); hide PrepProceed, PrepStore;
    case Bind =>
      hide PrepScript, Attached;
      var u := if r.job.Some? then w.(jobs := Attached(w.jobs, r.job.value, r.artifact)) else w;
      Entered(w, u, d, r, r.(prep := Working(PrepScript(|r.chunks|))));
    case Promote => Entered(w, PutFile(w, r.artifact, NewFile(d, r.chunks)), d, r, r.(prep := Register));
    case Register =>
      var t := w.(store := Registered(w.store, d, r.artifact, r.activate));
      assert PrepProceed(w, d, r) == Enter(t, d, r.(prep := Prepared));
      hide PrepProceed, Registered;
      Entered(w, t, d, r, r.(prep := Prepared));
    case PrepFailing(code) =>
      UpdateJobShape(w, r.job, FailState(code), FailStage(code), 100, Some(code));
      hide UpdateJob, FailState, FailStage;
      Entered(w, UpdateJob(w, r.job, FailState(code), FailStage(code), 100, Some(code)), d, r, r.(prep := PrepFailed(code)));
    case Prepared => PrepEndFrame(w, d, r); hide PrepProceed, PrepStore;
    case PrepFailed(_) => PrepEndFrame(w, d, r); hide PrepProceed, PrepStore;
  }

  lemma PrepFrame(w: World, d: DocId, act: Act)
    requires ActAllowed(w, d, act) && w.regions[d].Preparing?
    ensures var r, v := w.regions[d], RegionNext(w, d, act); Framed(w, v, d, r) && v.store == PrepStore(w, d, r, act)
  {
    var r := w.regions[d];
    hide Framed, Enter, Raise;
    if act.Proceed? {
      PrepProceedFrame(w, d, r);
      hide PrepProceed, PrepStore;
    } else if r.prep.Bind? || r.prep.PrepFailing? || r.prep.PrepFailed? {
      Raised(w, w, d, r, act.code);
    } else {
      Entered(w, w, d, r, r.(prep := PrepFailing(act.code)));
    }
  }

  // ---------- indexing ----------

  predicate IsCatalogStep(p: IndexPhase) {
    !IsCheck(p) && !IsReport(p) && !IsFileStep(p)
  }

  /** The stores after a catalog transaction of a rebuild. */
  function CatalogStore(w: World, d: DocId, r: Region): Store
    requires r.Rebuilding?
  {
    match r.index
    case CloseGate => if r.activate then SetGateOf(w, d, Gate.Indexing, None).store else w.store
    case OpenGate => Opened(w.store, d, r.artifact, r.activate)
    case RestoreGate(code) => if r.activate then SetGateOf(w, d, Gate.PreparedNotIndexed, Some(code)).store else w.store
    case _ => w.store
  }

  lemma CatalogFrame(w: World, d: DocId, r: Region)
    requires d in w.regions && w.regions[d] == r && r.Rebuilding?
    ensures var v := IndexCatalogStep(w, d, r); Framed(w, v, d, r) && v.store == CatalogStore(w, d, r)
  {
    match r.index
    case Attach =>
      hide Framed, Enter, Attached;
      Entered(w, if r.job.Some? then w.(jobs := Attached(w.jobs, r.job.value, r.artifact)) else w, d, r, r.(index := CloseGate));
    case CloseGate =>
      SetGateShape(w, d, Gate.Indexing, None);
      hide Framed, Enter, SetGateOf;
      Entered(w, if r.activate then SetGateOf(w, d, Gate.Indexing, None) else w, d, r, r.(index := CheckStart));
    case OpenGate =>
      hide Framed, Enter, Opened;
      Entered(w, w.(store := Opened(w.store, d, r.artifact, r.activate)), d, r, r.(index := Succeed));
    case RestoreGate(code) =>
      SetGateShape(w, d, Gate.PreparedNotIndexed, Some(code));
      hide Framed, Enter, SetGateOf;
      Entered(w, if r.activate then SetGateOf(w, d, Gate.PreparedNotIndexed, Some(code)) else w, d, r,
              r.(index := FailJob(code)));
    case FailJob(code) =>
      UpdateJobShape(w, r.job, FailState(code), FailStage(code), 100, Some(code));
      hide Framed, Raise, UpdateJob, FailState, FailStage;
      Raised(w, UpdateJob(w, r.job, FailState(code), FailStage(code), 100, Some(code)), d, r, code);
    case Succeed =>
      UpdateJobShape(w, r.job, Succeeded, Stage.IndexReady, 100, None);
      hide UpdateJob;
    case _ =>
  }

  /** At most the file of `a` is replaced, by one with the same chunks in the same directory. */
  ghost predicate ChunksKept(s: Store, t: Store, a: ArtId) {
    t.files == s.files
    || (a in s.files && a in t.files && t.files == s.files[a := t.files[a]]
        && t.files[a].chunks == s.files[a].chunks && t.files[a].directory == s.files[a].directory)
  }

  /** A transaction on the artifact file. */
  ghost predicate FileFramed(w: World, v: World, d: DocId, r: Region)
    requires r.Rebuilding?
  {
    && Framed(w, v, d, r) && d in v.regions && v.jobs == w.jobs && v.store == w.store.(files := v.store.files)
    && ChunksKept(w.store, v.store, r.artifact)
  }

  lemma FileEntered(w: World, d: DocId, r: Region, file: A.ArtifactFile, next: IndexPhase)
    requires r.Rebuilding? && r.artifact in w.store.files
    requires file.chunks == w.store.files[r.artifact].chunks && file.directory == w.store.files[r.artifact].directory
    ensures FileFramed(w, Enter(PutFile(w, r.artifact, file), d, r.(index := next)), d, r)
  {
    Entered(w, PutFile(w, r.artifact, file), d, r, r.(index := next));
    hide Enter, Framed;
  }

  lemma OnlyEntered(w: World, d: DocId, r: Region, next: IndexPhase)
    requires r.Rebuilding?
    ensures FileFramed(w, Enter(w, d, r.(index := next)), d, r)
  {
    Entered(w, w, d, r, r.(index := next));
    hide Enter, Framed;
  }

  lemma AppendFrame(w: World, d: DocId, r: Region, n: nat, last: int, vectors: seq<A.Vector>)
    requires d in w.regions && w.regions[d] == r && r.Rebuilding? && r.artifact in w.store.files
    ensures FileFramed(w, AppendPage(w, d, r, n, last, vectors), d, r)
  {
    hide FileFramed, Enter, PutFile, A.Page, A.Rows, A.WithEmbeddings, A.LexicalOf, PageFits;
    var file := w.store.files[r.artifact];
    var page := A.Page(file.chunks, last, BATCH_SIZE);
    if PageFits(page, vectors) {
      assert page != [] && |vectors| == |page| by { PageFitsSize(page, vectors); }
      FileEntered(w, d, r, A.Appended(file, A.Rows(file.chunks, page), vectors, MODEL),
                  ReportPage(n + |page|, page[|page| - 1]));
    } else {
      OnlyEntered(w, d, r, RestoreFile(PreparationFailed));
    }
  }

  lemma PageFitsSize(page: seq<int>, vectors: seq<A.Vector>)
    requires PageFits(page, vectors)
    ensures page != [] && |vectors| == |page|
  {
  }

  lemma FileFrame(w: World, d: DocId, r: Region)
    requires d in w.regions && w.regions[d] == r && r.Rebuilding? && IsFileStep(r.index)
    ensures FileFramed(w, IndexFileStep(w, d, r), d, r)
  {
    hide FileFramed, Enter, PutFile, A.Validates, AppendPage;
    var a := r.artifact;
    if r.index.RestoreFile? {
      if a in w.store.files {
        FileEntered(w, d, r, w.store.files[a].(mark := A.NotIndexed), RestoreGate(r.index.code));
      } else {
        OnlyEntered(w, d, r, RestoreGate(r.index.code));
      }
    } else if a !in w.store.files || |w.store.files[a].chunks| == 0 {
      OnlyEntered(w, d, r, RestoreFile(PreparationFailed));
    } else {
      match r.index
      case Open => FileEntered(w, d, r, A.Cleared(w.store.files[a]), ReportOpen);
      case Append(n, last, vectors) => AppendFrame(w, d, r, n, last, vectors);
      case Validate(last) =>
        var ok := A.Validates(w.store.files[a], Total(w, a), MODEL);
        OnlyEntered(w, d, r, if ok then MarkReady else RestoreFile(PreparationFailed));
      case MarkReady => FileEntered(w, d, r, w.store.files[a].(mark := A.IndexReady), OpenGate);
    }
  }

  lemma QuietFrame(w: World, d: DocId, r: Region)
    requires d in w.regions && w.regions[d] == r && r.Rebuilding? && (IsCheck(r.index) || IsReport(r.index))
    ensures var v := IndexProceed(w, d, r); Framed(w, v, d, r) && d in v.regions && v.store == w.store
  {
    hide Framed, IndexFileStep, IndexCatalogStep, AfterCheck, AfterReport, Enter;
    if IsCheck(r.index) {
      Entered(w, w, d, r, r.(index := if CancelSeen(w, r.job) then RestoreFile(JobCancelled) else AfterCheck(r.index)));
    } else {
      var total := Total(w, r.artifact);
      var p := IndexProgress(ReportLocal(r.index, total));
      UpdateJobShape(w, r.job, Running, ReportStage(r.index), p, None);
      hide UpdateJob, ReportStage, IndexProgress, ReportLocal;
      Entered(w, UpdateJob(w, r.job, Running, ReportStage(r.index), p, None), d, r, r.(index := AfterReport(r.index, total)));
    }
  }

  lemma IndexFrame(w: World, d: DocId, act: Act)
    requires ActAllowed(w, d, act) && w.regions[d].Rebuilding?
    ensures var r, v := w.regions[d], RegionNext(w, d, act);
      && Framed(w, v, d, r)
      && v.store == if act.Proceed? && IsCatalogStep(r.index) then CatalogStore(w, d, r)
                    else if act.Proceed? && IsFileStep(r.index) then w.store.(files := v.store.files)
                    else w.store
  {
    var r := w.regions[d];
    hide Framed, Enter, Raise, IndexFileStep, IndexCatalogStep, CatalogStore;
    match act
    case Throw(code) =>
      if r.index.Attach? || r.index.CloseGate? || r.index.RestoreGate? || r.index.FailJob? {
        Raised(w, w, d, r, code);
      } else {
        Entered(w, w, d, r, r.(index := if r.index.RestoreFile? then RestoreGate(r.index.code) else RestoreFile(code)));
      }
    case Vectors(vs) => Entered(w, w, d, r, r.(index := CheckPage(r.index.processed, r.index.last, vs)));
    case Proceed =>
      if IsFileStep(r.index) { FileFrame(w, d, r); }
      else if IsCatalogStep(r.index) { CatalogFrame(w, d, r); }
      else { QuietFrame(w, d, r); hide IndexProceed; }
  }

  /** A step of whoever prepares or rebuilds. */
  lemma RegionFrame(w: World, d: DocId, act: Act)
    requires ActAllowed(w, d, act) && !w.regions[d].Deleting?
    ensures Framed(w, RegionNext(w, d, act), d, w.regions[d])
  {
    hide Framed;
    if w.regions[d].Preparing? { PrepFrame(w, d, act); } else { IndexFrame(w, d, act); }
    hide RegionNext;
  }

  lemma RegionIs(w: World, s: Step)
    requires Enabled(w, s) && s.Region?
    ensures ActAllowed(w, s.d, s.act) && Next(w, s) == RegionNext(w, s.d, s.act)
  {
    hide RegionNext;
  }

  // ---------- steps outside the locks ----------

  lemma WorkIs(w: World, s: Step)
    requires Enabled(w, s) && s.Work?
    ensures Outside(w.worker) && Next(w, s) == if s.ok then WorkNext(w) else WorkThrow(w)
  {
    hide WorkNext, WorkThrow;
  }

  /** A region somebody has just entered. */
  predicate Entry(r: Region, s: Step) {
    && (r.Preparing? ==> r.prep.Bind? && (s.WorkPrepare? || s.BeginPrepare?) && r.chunks == s.chunks)
    && (r.Rebuilding? ==> r.index.Attach?)
  }

  /** No file moves, no artifact changes hands, no region but a new one appears. */
  ghost predicate Apart(w: World, v: World, s: Step) {
    && v.store == w.store.(docs := v.store.docs, arts := v.store.arts) && w.next <= v.next
    && v.store.arts.Keys == w.store.arts.Keys
    && (forall a | a in w.store.arts :: v.store.arts[a].document == w.store.arts[a].document)
    && (!s.Crash? ==> w.regions.Keys <= v.regions.Keys)
    && (forall e | e in v.regions :: if e in w.regions then v.regions[e] == w.regions[e] else Entry(v.regions[e], s))
  }

  /** Only the rows, the worker and a document's gate may differ. */
  lemma SameApart(w: World, v: World, s: Step)
    requires v.store == w.store.(docs := v.store.docs) && v.regions == w.regions && w.next <= v.next
    ensures Apart(w, v, s)
  {
  }

  lemma EnteredApart(w: World, v: World, d: DocId, r: Region, s: Step)
    requires v.store == w.store && v.regions == w.regions[d := r] && d !in w.regions && w.next <= v.next && Entry(r, s)
    ensures Apart(w, v, s)
  {
  }

  lemma WorkShape(w: World, ok: bool)
    ensures var v := if ok then WorkNext(w) else WorkThrow(w);
      v.store == w.store.(docs := v.store.docs) && v.regions == w.regions && w.next == v.next
  {
    if ok && w.worker.ResetGate? {
      SetGateShape(w, w.worker.document, Gate.PreparedNotIndexed, None);
      hide SetGateOf;
    } else {
      hide Updated, Attached, Decide;
    }
  }

  lemma EnterApart(w: World, s: Step)
    requires Enabled(w, s) && (s.WorkPrepare? || s.WorkIndex?)
    ensures Apart(w, Next(w, s), s)
  {
    var j, d, v := w.worker.job, w.worker.document, Next(w, s);
    hide Apart, Chunked;
    if !v.worker.InRegion? {
      SameApart(w, v, s);
    } else {
      assert Entry(v.regions[d], s);
      EnteredApart(w, v, d, v.regions[d], s);
    }
  }

  /** The worker is in the region it asked for, or has been turned away. */
  lemma EnterWorker(w: World, s: Step)
    requires Enabled(w, s) && (s.WorkPrepare? || s.WorkIndex?)
    ensures var v := Next(w, s);
      && v.jobs == w.jobs && w.worker.document !in w.regions
      && (v.worker == InRegion(w.worker.job, w.worker.document) || (v.worker.Catching? && v.worker.job == w.worker.job))
  {
    hide Chunked;
  }

  lemma ActivatedApart(w: World, d: DocId, a: ArtId, s: Step)
    ensures Apart(w, w.(store := Opened(w.store, d, a, true)), s)
  {
  }

  /** The steps of API threads, of the worker outside regions and of the process. */
  lemma StepApart(w: World, s: Step)
    requires Enabled(w, s) && !s.Region?
    ensures Apart(w, Next(w, s), s)
  {
    hide Apart, RegionNext, WorkNext, WorkThrow, EnterPrepare, EnterIndex, SetGateOf, Opened, Chunked, Enqueued,
      CancelRequestedFor, Claimed, Reconciled;
    var v := Next(w, s);
    match s
    case WorkPrepare(_) => EnterApart(w, s); hide Next, Enabled;
    case WorkIndex => EnterApart(w, s); hide Next, Enabled;
    case BeginDelete(d) => EnteredApart(w, v, d, v.regions[d], s);
    case BeginPrepare(d, _, _) => EnteredApart(w, v, d, v.regions[d], s);
    case BeginIndex(d, _, _) => EnteredApart(w, v, d, v.regions[d], s);
    case ActivateArtifact(d, a) => ActivatedApart(w, d, a, s);
    case Crash => CrashApart(w, s);
    case Work(ok) => WorkShape(w, ok); SameApart(w, v, s);
    case ForceReindex(d) => SetGateShape(w, d, Gate.PreparedNotIndexed, None); SameApart(w, v, s);
    case Accept(_) => SameApart(w, v, s);
    case EnqueuePipeline(_, _) => SameApart(w, v, s);
    case RequestCancel(_) => SameApart(w, v, s);
    case Start => SameApart(w, v, s);
    case Stop => SameApart(w, v, s);
    case Claim(_) => SameApart(w, v, s);
  }

  lemma CrashApart(w: World, s: Step)
    requires s.Crash?
    ensures Apart(w, w.(worker := Down, regions := map[]), s)
  {
  }
}
