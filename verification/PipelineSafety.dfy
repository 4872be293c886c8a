/** The inductive invariant of the document pipeline, and that every step keeps its part about the two stores: the
    query gate is never open on an unfinished index. */
module PipelineSafety {
  import opened Wrappers
  import opened LocalJobs
  import opened DocumentPipeline
  import A = ArtifactIndex

  // ---------- stores ----------

  ghost predicate FileOk(file: A.ArtifactFile) {
    && |file.chunks| > 0
    && A.DistinctIds(file.chunks)
    && (file.mark == A.IndexReady ==> A.Complete(file))
  }

  ghost predicate Owns(s: Store, d: DocId, a: ArtId) {
    a in s.arts && s.arts[a].document == d
  }

  /** Complete on disk, or gone with a deletion that has not finished. */
  ghost predicate Queryable(s: Store, a: ArtId) {
    a in s.removed || (a in s.files && A.Complete(s.files[a]))
  }

  ghost predicate DocOk(s: Store, d: DocId)
    requires d in s.docs
  {
    && (s.docs[d].active.Some? ==> Owns(s, d, s.docs[d].active.value))
    && (s.docs[d].gate == Gate.IndexReady ==> s.docs[d].active.Some? && Queryable(s, s.docs[d].active.value))
  }

  ghost predicate ArtOk(s: Store, a: ArtId)
    requires a in s.arts
  {
    && s.arts[a].document in s.docs
    && (a !in s.removed ==> a in s.files && s.files[a].directory == s.arts[a].document)
  }

  ghost predicate StoreOk(s: Store) {
    && (forall d | d in s.docs :: DocOk(s, d))
    && (forall a | a in s.arts :: ArtOk(s, a))
    && (forall a | a in s.files :: FileOk(s.files[a]) && a !in s.removed)
  }

  ghost predicate Known(s: Store, a: ArtId) {
    a in s.arts || a in s.files || a in s.removed
  }

  ghost predicate StoreBelow(s: Store, next: nat) {
    && (forall a | a in s.arts :: a < next)
    && (forall a | a in s.files :: a < next)
    && (forall a | a in s.removed :: a < next)
  }

  // ---------- regions ----------

  /** From CloseGate to OpenGate a rebuild of the document's artifact keeps the gate closed. */
  predicate GateClosed(index: IndexPhase) {
    !(index.Attach? || index.CloseGate? || index.Succeed? || index.RestoreFile? || index.RestoreGate? || index.FailJob?)
  }

  ghost predicate Partial(s: Store, a: ArtId, n: nat, last: int) {
    a in s.files && s.files[a].mark == A.Rebuilding && A.PrefixIndexed(s.files[a], n, last, MODEL)
  }

  ghost predicate Full(s: Store, a: ArtId, last: int) {
    a in s.files && Partial(s, a, |s.files[a].chunks|, last)
  }

  ghost predicate Finished(s: Store, a: ArtId) {
    a in s.files && A.Complete(s.files[a])
  }

  ghost predicate IndexOk(s: Store, a: ArtId, index: IndexPhase) {
    match index
    case ReportOpen => Partial(s, a, 0, -1)
    case Loop(n, last) => Partial(s, a, n, last)
    case Embed(n, last) => Partial(s, a, n, last)
    case CheckPage(n, last, _) => Partial(s, a, n, last)
    case Append(n, last, _) => Partial(s, a, n, last)
    case ReportPage(n, last) => Partial(s, a, n, last)
    case LastCheck(last) => Full(s, a, last)
    case ReportValidating(last) => Full(s, a, last)
    case Validate(last) => Full(s, a, last)
    case MarkReady => Finished(s, a)
    case OpenGate => Finished(s, a)
    case _ => true
  }

  /** The script never opens the query gate. */
  ghost predicate Harmless(todo: seq<PrepOp>) {
    forall i | 0 <= i < |todo| && todo[i].SetGate? :: todo[i].gate != Gate.IndexReady
  }

  ghost predicate PrepOk(s: Store, d: DocId, a: ArtId, chunks: A.Chunks, prep: PrepPhase) {
    && Chunked(chunks)
    && (prep.Working? ==> Harmless(prep.todo))
    && (prep.Bind? || prep.Working? || prep.Promote? ==> !Known(s, a))
    && (prep.Register? ==> a !in s.arts && a !in s.removed && a in s.files && s.files[a].directory == d)
  }

  ghost predicate RebuildOk(s: Store, d: DocId, a: ArtId, activate: bool, index: IndexPhase) {
    && Owns(s, d, a)
    && d in s.docs
    && (activate && GateClosed(index) ==> s.docs[d].gate != Gate.IndexReady)
    && (!activate ==> s.docs[d].active != Some(a))
    && IndexOk(s, a, index)
  }

  ghost predicate RegionOk(s: Store, d: DocId, r: Region) {
    && d in s.docs
    && match r
       case Preparing(_, a, _, _, chunks, prep) => PrepOk(s, d, a, chunks, prep)
       case Rebuilding(_, a, activate, index) => RebuildOk(s, d, a, activate, index)
       case Deleting(_) => true
  }

  ghost predicate RegionsOk(s: Store, regions: map<DocId, Region>) {
    forall d | d in regions :: RegionOk(s, d, regions[d])
  }

  /** No two preparations share an artifact id. */
  ghost predicate FreshArtifacts(regions: map<DocId, Region>, next: nat) {
    && (forall d | d in regions && regions[d].Preparing? :: regions[d].artifact < next)
    && (forall d, e | d in regions && e in regions && d != e && regions[d].Preparing? && regions[e].Preparing? ::
          regions[d].artifact != regions[e].artifact)
  }

  // ---------- jobs and the worker ----------

  /** In the pipeline every row is a PROCESS_DOCUMENT row. */
  ghost predicate JobsOk(jobs: Table, next: nat) {
    && TableOk(jobs)
    && forall j | j in jobs :: j < next && jobs[j].operation == ProcessDocument
  }

  ghost predicate Live(jobs: Table, j: JobId) {
    j in jobs ==> jobs[j].state == Running || jobs[j].state == CancelRequested
  }

  ghost predicate Handled(jobs: Table, j: JobId) {
    j in jobs ==> jobs[j].state != Queued
  }

  function JobOf(pc: WorkerPc): Option<JobId> {
    if pc.Down? || pc.Idle? then None else Some(pc.job)
  }

  function RegionJob(r: Region): Option<JobId> {
    match r
    case Preparing(j, _, _, _, _, _) => j
    case Rebuilding(j, _, _, _) => j
    case Deleting(_) => None
  }

  ghost predicate WorkerOk(jobs: Table, regions: map<DocId, Region>, pc: WorkerPc, next: nat) {
    && (JobOf(pc).Some? ==> pc.job < next)
    && (pc.Ending? ==> Terminal(pc.state))
    && (JobOf(pc).Some? && !pc.Catching? && !pc.Contained? && !pc.InRegion? ==> Live(jobs, pc.job))
    && (pc.Catching? || pc.Contained? ==> Handled(jobs, pc.job))
    && (pc.InRegion? ==> pc.document in regions && RegionJob(regions[pc.document]) == Some(pc.job))
  }

  /** A region with a job is the worker's; its row exists (deletion needs the lock) and is in flight until
      the failure handler of a preparation has written it. */
  ghost predicate RegionJobOk(jobs: Table, pc: WorkerPc, d: DocId, r: Region) {
    RegionJob(r).Some? ==>
      var j := RegionJob(r).value;
      && pc == InRegion(j, d)
      && j in jobs
      && jobs[j].document == Some(d)
      && jobs[j].state != Queued
      && (!(r.Preparing? && r.prep.PrepFailed?) ==> Live(jobs, j))
  }

  ghost predicate RegionJobsOk(jobs: Table, pc: WorkerPc, regions: map<DocId, Region>) {
    forall d | d in regions :: RegionJobOk(jobs, pc, d, regions[d])
  }

  /** The worker is done with settled jobs: each is terminal or deleted. */
  ghost predicate SettledOk(jobs: Table, settled: set<JobId>, next: nat) {
    forall j | j in settled :: j < next && (j in jobs ==> Terminal(jobs[j].state))
  }

  /** A running job is in the worker's hands, lost with a stopped worker, or escaped containment. */
  ghost predicate RunningAccounted(w: World) {
    forall j | j in w.jobs && w.jobs[j].state == Running ::
      w.worker.Down? || JobOf(w.worker) == Some(j) || j in w.escaped
  }

  ghost predicate StoresInv(w: World) {
    StoreOk(w.store) && StoreBelow(w.store, w.next) && RegionsOk(w.store, w.regions) && FreshArtifacts(w.regions, w.next)
  }

  ghost predicate ThreadsInv(w: World) {
    && JobsOk(w.jobs, w.next)
    && WorkerOk(w.jobs, w.regions, w.worker, w.next)
    && RegionJobsOk(w.jobs, w.worker, w.regions)
    && SettledOk(w.jobs, w.settled, w.next)
    && RunningAccounted(w)
  }

  ghost predicate Inv(w: World) {
    StoresInv(w) && ThreadsInv(w)
  }

  lemma RegionAt(w: World, d: DocId)
    requires StoresInv(w) && d in w.regions
    ensures RegionOk(w.store, d, w.regions[d]) && StoreOk(w.store) && StoreBelow(w.store, w.next)
  {
  }

  // ---------- commits by the holder of one document lock ----------

  /** Everything that belongs to other documents is as it was; `x` is the only identifier that may appear. */
  ghost predicate Local(s: Store, t: Store, d: DocId, x: ArtId) {
    && (forall e: DocId | e != d :: e in s.docs <==> e in t.docs)
    && (forall e: DocId | e != d && e in s.docs && e in t.docs :: s.docs[e] == t.docs[e])
    && (forall a | a in s.arts && s.arts[a].document != d :: a in t.arts && t.arts[a] == s.arts[a])
    && (forall a | a in t.arts && t.arts[a].document != d :: a in s.arts && t.arts[a] == s.arts[a])
    && (forall a | a in s.files && s.files[a].directory != d :: a in t.files && t.files[a] == s.files[a])
    && (forall a | a in t.files && t.files[a].directory != d :: a in s.files && t.files[a] == s.files[a])
    && (forall a | a in t.removed && a !in s.removed :: a in s.files && s.files[a].directory == d)
    && s.removed <= t.removed
    && (forall a | a in t.arts && a !in s.arts :: a == x)
    && (forall a | a in t.files && a !in s.files :: a == x)
  }

  /** Another document's region is not disturbed. */
  lemma OtherRegion(s: Store, t: Store, d: DocId, x: ArtId, e: DocId, r: Region)
    requires StoreOk(s) && Local(s, t, d, x) && e != d && RegionOk(s, e, r)
    requires r.Preparing? ==> r.artifact != x
    ensures RegionOk(t, e, r)
  {
    if r.Rebuilding? {
      var a := r.artifact;
      assert ArtOk(s, a);
      assert a in t.arts && t.arts[a].document == e;
      if a in s.files {
        assert s.files[a].directory == e;
        assert t.files[a] == s.files[a];
      }
    }
  }

  ghost predicate SameElsewhere(w: World, v: World, d: DocId) {
    forall e: DocId | e != d ::
      (e in w.regions <==> e in v.regions) && (e in w.regions ==> w.regions[e] == v.regions[e])
  }

  /** A step of the holder of document_lock(d), reduced to what it does at `d`. */
  lemma Assemble(w: World, v: World, d: DocId, x: ArtId)
    requires StoresInv(w) && SameElsewhere(w, v, d) && w.next <= v.next
    requires Local(w.store, v.store, d, x) && StoreOk(v.store) && StoreBelow(v.store, v.next)
    requires forall e | e in w.regions && e != d && w.regions[e].Preparing? :: w.regions[e].artifact != x
    requires d in v.regions ==> RegionOk(v.store, d, v.regions[d])
    requires d in v.regions && v.regions[d].Preparing? ==> v.regions[d].artifact == x < v.next
    ensures StoresInv(v)
  {
    forall e | e in v.regions ensures RegionOk(v.store, e, v.regions[e]) {
      if e != d {
        OtherRegion(w.store, v.store, d, x, e, v.regions[e]);
      }
    }
  }

  /** The step leaves the stores alone and moves only the region at `d`, keeping its artifact. */
  lemma AssembleSame(w: World, v: World, d: DocId)
    requires StoresInv(w) && d in w.regions && SameElsewhere(w, v, d) && w.next == v.next && v.store == w.store
    requires d in v.regions ==> RegionOk(v.store, d, v.regions[d])
    requires d in v.regions && v.regions[d].Preparing? ==>
      w.regions[d].Preparing? && v.regions[d].artifact == w.regions[d].artifact
    ensures StoresInv(v)
  {
    forall e | e in v.regions ensures RegionOk(v.store, e, v.regions[e]) {
      if e != d { assert RegionOk(w.store, e, w.regions[e]); }
    }
  }

  // ---------- store commits ----------

  lemma PutDocOk(s: Store, d: DocId, document: Document)
    requires StoreOk(s)
    requires DocOk(s.(docs := s.docs[d := document]), d)
    ensures StoreOk(s.(docs := s.docs[d := document]))
  {
    var t := s.(docs := s.docs[d := document]);
    forall e | e in t.docs ensures DocOk(t, e) {
      if e != d { assert DocOk(s, e); }
    }
    forall a | a in t.arts ensures ArtOk(t, a) { assert ArtOk(s, a); }
  }

  lemma PutFileOk(s: Store, a: ArtId, file: A.ArtifactFile)
    requires StoreOk(s) && FileOk(file) && a !in s.removed
    requires a in s.files ==> file.directory == s.files[a].directory
    requires a !in s.files ==> a !in s.arts
    requires A.Complete(file) || forall d | d in s.docs :: !(s.docs[d].gate == Gate.IndexReady && s.docs[d].active == Some(a))
    ensures StoreOk(s.(files := s.files[a := file]))
  {
    var t := s.(files := s.files[a := file]);
    forall e | e in t.docs ensures DocOk(t, e) { assert DocOk(s, e); }
    forall b | b in t.arts ensures ArtOk(t, b) { assert ArtOk(s, b); }
  }

  lemma PutArtOk(s: Store, a: ArtId, row: ArtifactRow)
    requires StoreOk(s) && row.document in s.docs
    requires a in s.arts ==> row.document == s.arts[a].document
    requires a !in s.arts ==> a in s.files && s.files[a].directory == row.document
    ensures StoreOk(s.(arts := s.arts[a := row]))
  {
    var t := s.(arts := s.arts[a := row]);
    forall e | e in t.docs ensures DocOk(t, e) { assert DocOk(s, e); }
    forall b | b in t.arts ensures ArtOk(t, b) { if b != a { assert ArtOk(s, b); } else if a in s.arts { assert ArtOk(s, a); } }
  }

  lemma RemoveFilesOk(w: World, d: DocId, gone: set<ArtId>)
    requires StoreOk(w.store)
    requires forall a | a in gone :: a in w.store.files && w.store.files[a].directory == d
    ensures StoreOk(RemoveFiles(w, gone).store) && Local(w.store, RemoveFiles(w, gone).store, d, w.next)
  {
    var s, t := w.store, RemoveFiles(w, gone).store;
    forall e | e in t.docs ensures DocOk(t, e) { assert DocOk(s, e); }
    forall a | a in t.arts ensures ArtOk(t, a) { assert ArtOk(s, a); }
  }

  lemma RemoveRowsOk(s: Store, d: DocId, x: ArtId)
    requires StoreOk(s)
    ensures var t := s.(arts := map a | a in s.arts && s.arts[a].document != d :: s.arts[a],
                        docs := map e | e in s.docs && e != d :: s.docs[e]);
      StoreOk(t) && Local(s, t, d, x)
  {
    var t := s.(arts := map a | a in s.arts && s.arts[a].document != d :: s.arts[a],
                docs := map e | e in s.docs && e != d :: s.docs[e]);
    forall e | e in t.docs ensures DocOk(t, e) { assert DocOk(s, e); }
    forall a | a in t.arts ensures ArtOk(t, a) { assert ArtOk(s, a); }
  }

  // ---------- region steps and the stores ----------

  lemma {:induction false} PersistHarmless(start: nat, total: nat)
    ensures Harmless(PersistOps(start, total))
    decreases total - start
  {
    if start < total { PersistHarmless(start + PERSIST_BATCH_SIZE, total); }
  }

  lemma ScriptHarmless(total: nat)
    ensures Harmless(PrepScript(total))
  {
    PersistHarmless(0, total);
  }

  lemma GateOk(w: World, d: DocId, gate: Gate, error: Option<Code>)
    requires StoreOk(w.store) && gate != Gate.IndexReady
    ensures StoreOk(SetGateOf(w, d, gate, error).store)
    ensures Local(w.store, SetGateOf(w, d, gate, error).store, d, w.next)
    ensures forall a :: Known(SetGateOf(w, d, gate, error).store, a) <==> Known(w.store, a)
  {
    if d in w.store.docs {
      assert DocOk(w.store, d);
      PutDocOk(w.store, d, w.store.docs[d].(gate := gate, error := error));
    }
  }

  lemma LocalAny(s: Store, t: Store, d: DocId, x: ArtId, y: ArtId)
    requires Local(s, t, d, x) && t.arts.Keys <= s.arts.Keys && t.files.Keys <= s.files.Keys
    ensures Local(s, t, d, y)
  {
  }

  lemma PrepSetGateStores(w: World, d: DocId)
    requires StoresInv(w) && d in w.regions && w.regions[d].Preparing? && w.regions[d].prep.Working?
    requires w.regions[d].prep.todo != [] && w.regions[d].prep.todo[0].SetGate?
    ensures StoresInv(PrepProceed(w, d, w.regions[d]))
  {
    var r := w.regions[d];
    var gate := r.prep.todo[0].gate;
    assert RegionOk(w.store, d, r);
    GateOk(w, d, gate, None);
    LocalAny(w.store, SetGateOf(w, d, gate, None).store, d, w.next, r.artifact);
    Assemble(w, PrepProceed(w, d, r), d, r.artifact);
  }

  lemma UpdateJobShape(w: World, job: Option<JobId>, state: JobState, stage: Stage, progress: int, error: Option<Code>)
    ensures var v := UpdateJob(w, job, state, stage, progress, error); v == w.(jobs := v.jobs) && (job == None ==> v == w)
  {
    hide Updated;
  }

  /** What a preparation needs to know of the others: they use other artifact ids. */
  lemma OwnArtifact(w: World, d: DocId)
    requires StoresInv(w) && d in w.regions && w.regions[d].Preparing?
    ensures w.regions[d].artifact < w.next
    ensures forall e | e in w.regions && e != d && w.regions[e].Preparing? :: w.regions[e].artifact != w.regions[d].artifact
  {
    hide StoreOk, StoreBelow, RegionsOk;
  }

  /** Only the phase of a preparation moves. */
  lemma MovePrep(w: World, v: World, d: DocId, prep: PrepPhase)
    requires StoresInv(w) && d in w.regions && w.regions[d].Preparing?
    requires v.store == w.store && v.next == w.next && v.regions == w.regions[d := w.regions[d].(prep := prep)]
    requires var r := w.regions[d];
      PrepOk(w.store, d, r.artifact, r.chunks, r.prep) ==> PrepOk(w.store, d, r.artifact, r.chunks, prep)
    ensures StoresInv(v)
  {
    RegionAt(w, d);
    hide StoresInv, StoreOk, StoreBelow, PrepOk;
    AssembleSame(w, v, d);
  }

  lemma PrepWorkingStores(w: World, d: DocId)
    requires StoresInv(w) && d in w.regions && w.regions[d].Preparing? && w.regions[d].prep.Working?
    ensures StoresInv(PrepProceed(w, d, w.regions[d]))
  {
    var r := w.regions[d];
    var todo := r.prep.todo;
    hide StoresInv;
    if todo == [] {
      MovePrep(w, PrepProceed(w, d, r), d, Promote);
    } else if todo[0].SetGate? {
      PrepSetGateStores(w, d);
      hide PrepProceed;
    } else if todo[0].Report? {
      UpdateJobShape(w, r.job, Running, todo[0].stage, PrepProgress(todo[0].progress), None);
      hide UpdateJob, PrepProgress;
      MovePrep(w, PrepProceed(w, d, r), d, Working(todo[1..]));
    } else {
      MovePrep(w, PrepProceed(w, d, r), d, if CancelSeen(w, r.job) then PrepFailing(JobCancelled) else Working(todo[1..]));
    }
  }

  lemma PromotedFacts(w: World, d: DocId)
    requires StoresInv(w) && d in w.regions && w.regions[d].Preparing? && w.regions[d].prep.Promote?
    ensures var r := w.regions[d];
      && StoreOk(w.store) && d in w.store.docs && !Known(w.store, r.artifact) && FileOk(NewFile(d, r.chunks))
      && forall e | e in w.store.docs :: w.store.docs[e].active != Some(r.artifact)
  {
    RegionAt(w, d);
    hide StoresInv;
    forall e | e in w.store.docs ensures w.store.docs[e].active != Some(w.regions[d].artifact) {
      assert DocOk(w.store, e);
    }
  }

  lemma PromotedStore(w: World, d: DocId)
    requires StoresInv(w) && d in w.regions && w.regions[d].Preparing? && w.regions[d].prep.Promote?
    ensures var r := w.regions[d]; StoreOk(PutFile(w, r.artifact, NewFile(d, r.chunks)).store)
  {
    var r := w.regions[d];
    PromotedFacts(w, d);
    hide StoresInv, StoreOk, FileOk, NewFile, A.Complete;
    assert NewFile(d, r.chunks).directory == d;
    PutFileOk(w.store, r.artifact, NewFile(d, r.chunks));
  }

  lemma NewFileLocal(s: Store, d: DocId, a: ArtId, file: A.ArtifactFile, next: nat)
    requires StoreBelow(s, next) && a < next && a !in s.files && file.directory == d
    ensures var t := s.(files := s.files[a := file]); StoreBelow(t, next) && Local(s, t, d, a)
  {
  }

  lemma PromotedLocal(w: World, d: DocId)
    requires StoresInv(w) && d in w.regions && w.regions[d].Preparing? && w.regions[d].prep.Promote?
    ensures var r := w.regions[d]; var t := PutFile(w, r.artifact, NewFile(d, r.chunks)).store;
      StoreBelow(t, w.next) && Local(w.store, t, d, r.artifact) && RegionOk(t, d, r.(prep := Register))
  {
    var r := w.regions[d];
    RegionAt(w, d);
    OwnArtifact(w, d);
    NewFileLocal(w.store, d, r.artifact, NewFile(d, r.chunks), w.next);
    hide StoresInv, StoreOk, StoreBelow, Local, Chunked;
  }

  lemma PrepPromoteStores(w: World, d: DocId)
    requires StoresInv(w) && d in w.regions && w.regions[d].Preparing? && w.regions[d].prep.Promote?
    ensures StoresInv(PrepProceed(w, d, w.regions[d]))
  {
    PromotedStore(w, d);
    PromotedLocal(w, d);
    OwnArtifact(w, d);
    hide StoresInv, StoreOk, StoreBelow, Local, RegionOk, NewFile;
    Assemble(w, PrepProceed(w, d, w.regions[d]), d, w.regions[d].artifact);
  }

  /** The rows that register a promoted artifact. */
  function Registered(s: Store, d: DocId, a: ArtId, activate: bool): Store {
    var t := s.(arts := s.arts[a := ArtifactRow(d, false)]);
    if activate && d in s.docs then t.(docs := t.docs[d := Document(Gate.PreparedNotIndexed, Some(a), None)]) else t
  }

  lemma RegisteredStore(s: Store, d: DocId, a: ArtId, activate: bool)
    requires StoreOk(s) && d in s.docs
    requires a !in s.arts && a !in s.removed && a in s.files && s.files[a].directory == d
    ensures StoreOk(Registered(s, d, a, activate))
  {
    PutArtOk(s, a, ArtifactRow(d, false));
    hide StoreOk;
    PutDocOk(s.(arts := s.arts[a := ArtifactRow(d, false)]), d, Document(Gate.PreparedNotIndexed, Some(a), None));
  }

  lemma RegisteredLocal(s: Store, d: DocId, a: ArtId, activate: bool, next: nat)
    requires StoreBelow(s, next) && d in s.docs && a < next && a !in s.arts
    ensures var t := Registered(s, d, a, activate); StoreBelow(t, next) && Local(s, t, d, a) && d in t.docs
  {
  }

  lemma PrepRegisterStores(w: World, d: DocId)
    requires StoresInv(w) && d in w.regions && w.regions[d].Preparing? && w.regions[d].prep.Register?
    ensures StoresInv(PrepProceed(w, d, w.regions[d]))
  {
    var r := w.regions[d];
    RegionAt(w, d);
    OwnArtifact(w, d);
    hide StoresInv, StoreOk, StoreBelow, Local;
    RegisteredStore(w.store, d, r.artifact, r.activate);
    RegisteredLocal(w.store, d, r.artifact, r.activate, w.next);
    Assemble(w, PrepProceed(w, d, r), d, r.artifact);
  }

  lemma RaiseShape(w: World, d: DocId, job: Option<JobId>, code: Code)
    ensures var v := Raise(w, d, job, code);
      && v.store == w.store && v.next == w.next && v.jobs == w.jobs
      && v.settled == w.settled && v.escaped == w.escaped
      && SameElsewhere(w, v, d) && d !in v.regions
      && v.worker == if job.Some? then Catching(job.value, code) else w.worker
  {
  }

  lemma SetGateShape(w: World, d: DocId, gate: Gate, error: Option<Code>)
    ensures var v := SetGateOf(w, d, gate, error);
      && v == w.(store := v.store)
      && v.store.arts == w.store.arts && v.store.files == w.store.files && v.store.removed == w.store.removed
  {
  }

  /** The lock is released and the gate of the document is closed, or as it was. */
  lemma RaiseStores(w: World, d: DocId, job: Option<JobId>, code: Code)
    requires StoresInv(w) && d in w.regions
    ensures StoresInv(Raise(w, d, job, code))
  {
    RaiseShape(w, d, job, code);
    hide StoresInv, Raise;
    AssembleSame(w, Raise(w, d, job, code), d);
  }

  lemma PrepFailedStores(w: World, d: DocId)
    requires StoresInv(w) && d in w.regions && w.regions[d].Preparing? && w.regions[d].prep.PrepFailed?
    ensures StoresInv(PrepProceed(w, d, w.regions[d]))
  {
    var r := w.regions[d];
    var u := if r.hadActive then w else SetGateOf(w, d, Gate.Failed, Some(r.prep.code));
    CloseGateAnywhere(w, d, Gate.Failed, Some(r.prep.code));
    SetGateShape(w, d, Gate.Failed, Some(r.prep.code));
    hide Raise, SetGateOf, StoresInv;
    RaiseStores(u, d, r.job, r.prep.code);
  }

  lemma PrepOtherStores(w: World, d: DocId)
    requires StoresInv(w) && d in w.regions && w.regions[d].Preparing?
    requires var p := w.regions[d].prep; p.Bind? || p.Prepared? || p.PrepFailing?
    ensures StoresInv(PrepProceed(w, d, w.regions[d]))
  {
    var r := w.regions[d];
    ScriptHarmless(|r.chunks|);
    hide PrepScript, StoresInv;
    match r.prep
    case Bind =>
      hide Attached;
      MovePrep(w, PrepProceed(w, d, r), d, Working(PrepScript(|r.chunks|)));
    case PrepFailing(code) =>
      UpdateJobShape(w, r.job, FailState(code), FailStage(code), 100, Some(code));
      hide UpdateJob, FailState, FailStage;
      MovePrep(w, PrepProceed(w, d, r), d, PrepFailed(code));
    case Prepared =>
      UpdateJobShape(w, r.job, Running, Stage.PreparedNotIndexed, 60, None);
      hide UpdateJob;
      AssembleSame(w, PrepProceed(w, d, r), d);
  }

  lemma PrepThrowStores(w: World, d: DocId, code: Code)
    requires StoresInv(w) && d in w.regions && w.regions[d].Preparing?
    ensures StoresInv(PrepThrow(w, d, w.regions[d], code))
  {
    var r := w.regions[d];
    hide StoresInv;
    if r.prep.Bind? || r.prep.PrepFailing? || r.prep.PrepFailed? {
      RaiseStores(w, d, r.job, code);
      hide Raise;
    } else {
      MovePrep(w, PrepThrow(w, d, r, code), d, PrepFailing(code));
    }
  }

  lemma PrepStores(w: World, d: DocId, act: Act)
    requires StoresInv(w) && ActAllowed(w, d, act) && w.regions[d].Preparing?
    ensures StoresInv(RegionNext(w, d, act))
  {
    hide StoresInv, PrepProceed, PrepThrow;
    if act.Throw? {
      PrepThrowStores(w, d, act.code);
    } else {
      match w.regions[d].prep
      case Working(_) => PrepWorkingStores(w, d);
      case Promote => PrepPromoteStores(w, d);
      case Register => PrepRegisterStores(w, d);
      case PrepFailed(_) => PrepFailedStores(w, d);
      case _ => PrepOtherStores(w, d);
    }
  }

  // ---------- index steps and the stores ----------

  lemma CheckPhaseOk(s: Store, a: ArtId, p: IndexPhase)
    requires IsCheck(p) && IndexOk(s, a, p)
    ensures IndexOk(s, a, AfterCheck(p)) && GateClosed(p) && GateClosed(AfterCheck(p))
  {
  }

  lemma ReportPhaseOk(s: Store, a: ArtId, p: IndexPhase, total: nat)
    requires IsReport(p) && IndexOk(s, a, p)
    requires total == if a in s.files then |s.files[a].chunks| else 0
    ensures IndexOk(s, a, AfterReport(p, total)) && GateClosed(p)
  {
  }

  lemma IndexCheckStores(w: World, d: DocId)
    requires StoresInv(w) && d in w.regions && w.regions[d].Rebuilding? && IsCheck(w.regions[d].index)
    ensures StoresInv(IndexProceed(w, d, w.regions[d]))
  {
    var r := w.regions[d];
    assert RegionOk(w.store, d, r);
    CheckPhaseOk(w.store, r.artifact, r.index);
    assert IndexOk(w.store, r.artifact, RestoreFile(JobCancelled));
    hide IndexOk, AfterCheck;
    AssembleSame(w, IndexProceed(w, d, r), d);
  }

  /** No document shows the artifact through an open gate while its tables are being rebuilt. */
  lemma NotShown(w: World, d: DocId)
    requires StoresInv(w) && d in w.regions && w.regions[d].Rebuilding? && GateClosed(w.regions[d].index)
    ensures var a := w.regions[d].artifact;
      forall e | e in w.store.docs :: !(w.store.docs[e].gate == Gate.IndexReady && w.store.docs[e].active == Some(a))
  {
    var r := w.regions[d];
    assert RegionOk(w.store, d, r);
    forall e | e in w.store.docs
      ensures !(w.store.docs[e].gate == Gate.IndexReady && w.store.docs[e].active == Some(r.artifact))
    {
      assert DocOk(w.store, e);
    }
  }

  /** Only the phase moves. */
  lemma MovePhase(w: World, d: DocId, index: IndexPhase)
    requires StoresInv(w) && d in w.regions && w.regions[d].Rebuilding?
    requires IndexOk(w.store, w.regions[d].artifact, index) && (GateClosed(index) ==> GateClosed(w.regions[d].index))
    ensures StoresInv(Enter(w, d, w.regions[d].(index := index)))
  {
    assert RegionOk(w.store, d, w.regions[d]);
    hide IndexOk, GateClosed;
    AssembleSame(w, Enter(w, d, w.regions[d].(index := index)), d);
  }

  lemma PhaseAt(w: World, d: DocId)
    requires StoresInv(w) && d in w.regions && w.regions[d].Rebuilding?
    ensures IndexOk(w.store, w.regions[d].artifact, w.regions[d].index)
  {
    RegionAt(w, d);
    hide IndexOk;
  }

  lemma ReportFrame(w: World, d: DocId, r: Region)
    requires r.Rebuilding? && IsReport(r.index)
    ensures StoresFrame(Enter(w, d, r.(index := AfterReport(r.index, Total(w, r.artifact)))), IndexProceed(w, d, r))
  {
    var total := Total(w, r.artifact);
    UpdateJobShape(w, r.job, Running, ReportStage(r.index), IndexProgress(ReportLocal(r.index, total)), None);
    hide AfterReport, ReportLocal, ReportStage, Total, UpdateJob, IndexProgress, IndexFileStep, IndexCatalogStep;
  }

  lemma IndexReportStores(w: World, d: DocId)
    requires StoresInv(w) && d in w.regions && w.regions[d].Rebuilding? && IsReport(w.regions[d].index)
    ensures StoresInv(IndexProceed(w, d, w.regions[d]))
  {
    var r := w.regions[d];
    var next := AfterReport(r.index, Total(w, r.artifact));
    hide StoresInv, IndexOk, AfterReport, GateClosed, IndexProceed, Enter, IsReport, StoresFrame;
    PhaseAt(w, d);
    ReportPhaseOk(w.store, r.artifact, r.index, Total(w, r.artifact));
    MovePhase(w, d, next);
    ReportFrame(w, d, r);
    FrameStores(Enter(w, d, r.(index := next)), IndexProceed(w, d, r));
  }

  lemma PutFileStore(w: World, d: DocId, file: A.ArtifactFile)
    requires StoresInv(w) && d in w.regions && w.regions[d].Rebuilding?
    requires var r := w.regions[d];
      && r.artifact in w.store.files && FileOk(file) && file.directory == w.store.files[r.artifact].directory
      && (A.Complete(file) || GateClosed(r.index))
    ensures var s := PutFile(w, w.regions[d].artifact, file).store; StoreOk(s) && StoreBelow(s, w.next)
  {
    var a := w.regions[d].artifact;
    RegionAt(w, d);
    if !A.Complete(file) { NotShown(w, d); }
    hide FileOk, A.Complete, StoresInv, RegionOk;
    PutFileOk(w.store, a, file);
  }

  lemma PutFileLocal(w: World, d: DocId, file: A.ArtifactFile)
    requires StoresInv(w) && d in w.regions && w.regions[d].Rebuilding?
    requires var a := w.regions[d].artifact;
      a in w.store.files && file.directory == w.store.files[a].directory
    ensures Local(w.store, PutFile(w, w.regions[d].artifact, file).store, d, w.next)
  {
    var a := w.regions[d].artifact;
    RegionAt(w, d);
    assert ArtOk(w.store, a);
    hide StoresInv, FileOk, DocOk;
  }

  /** Replacing the file of the artifact under rebuild. */
  lemma PutFileStores(w: World, d: DocId, file: A.ArtifactFile, index: IndexPhase)
    requires StoresInv(w) && d in w.regions && w.regions[d].Rebuilding?
    requires var r := w.regions[d];
      && r.artifact in w.store.files && FileOk(file) && file.directory == w.store.files[r.artifact].directory
      && (A.Complete(file) || GateClosed(r.index))
      && IndexOk(PutFile(w, r.artifact, file).store, r.artifact, index)
      && (GateClosed(index) ==> GateClosed(r.index))
    ensures StoresInv(Enter(PutFile(w, w.regions[d].artifact, file), d, w.regions[d].(index := index)))
  {
    var r := w.regions[d];
    var v := Enter(PutFile(w, r.artifact, file), d, r.(index := index));
    PutFileStore(w, d, file);
    PutFileLocal(w, d, file);
    RegionAt(w, d);
    KnownArtifacts(w);
    hide FileOk, IndexOk, A.Complete, StoresInv, StoreOk, StoreBelow, Local;
    Assemble(w, v, d, w.next);
  }

  lemma KnownArtifacts(w: World)
    requires StoresInv(w)
    ensures forall e | e in w.regions && w.regions[e].Preparing? :: w.regions[e].artifact < w.next
  {
  }

  lemma AppendedOk(file: A.ArtifactFile, n: nat, last: int, vectors: seq<A.Vector>)
    requires FileOk(file) && file.mark == A.Rebuilding && A.PrefixIndexed(file, n, last, MODEL)
    requires PageFits(A.Page(file.chunks, last, BATCH_SIZE), vectors)
    ensures var page := A.Page(file.chunks, last, BATCH_SIZE);
      var after := A.Appended(file, A.Rows(file.chunks, page), vectors, MODEL);
      && A.PrefixIndexed(after, n + |page|, page[|page| - 1], MODEL)
      && FileOk(after) && after.mark == A.Rebuilding && after.directory == file.directory
  {
    hide A.Page, A.Rows, A.PrefixIndexed, A.WithEmbeddings, A.LexicalOf, A.DistinctIds, A.Complete, A.ValidVector;
    A.AppendAdvances(file, n, last, BATCH_SIZE, vectors, MODEL);
  }

  lemma PutPartial(w: World, d: DocId, file: A.ArtifactFile, n: nat, last: int)
    requires StoresInv(w) && d in w.regions && w.regions[d].Rebuilding? && w.regions[d].index.Append?
    requires w.regions[d].artifact in w.store.files
    requires FileOk(file) && file.directory == w.store.files[w.regions[d].artifact].directory
    requires file.mark == A.Rebuilding && A.PrefixIndexed(file, n, last, MODEL)
    ensures StoresInv(Enter(PutFile(w, w.regions[d].artifact, file), d, w.regions[d].(index := ReportPage(n, last))))
  {
    hide StoresInv, FileOk, A.PrefixIndexed, A.Complete;
    PutFileStores(w, d, file, ReportPage(n, last));
  }

  lemma AppendFacts(w: World, d: DocId)
    requires StoresInv(w) && d in w.regions && w.regions[d].Rebuilding? && w.regions[d].index.Append?
    ensures var r := w.regions[d];
      && r.artifact in w.store.files && FileOk(w.store.files[r.artifact])
      && w.store.files[r.artifact].mark == A.Rebuilding
      && A.PrefixIndexed(w.store.files[r.artifact], r.index.processed, r.index.last, MODEL)
  {
    assert RegionOk(w.store, d, w.regions[d]);
  }

  lemma AppendFits(w: World, d: DocId, page: seq<int>, after: A.ArtifactFile)
    requires StoresInv(w) && d in w.regions && w.regions[d].Rebuilding? && w.regions[d].index.Append?
    requires w.regions[d].artifact in w.store.files
    requires page == A.Page(w.store.files[w.regions[d].artifact].chunks, w.regions[d].index.last, BATCH_SIZE)
    requires PageFits(page, w.regions[d].index.vectors) && page != []
    requires var file := w.store.files[w.regions[d].artifact];
      after == A.Appended(file, A.Rows(file.chunks, page), w.regions[d].index.vectors, MODEL)
    ensures StoresInv(Enter(PutFile(w, w.regions[d].artifact, after), d,
                            w.regions[d].(index := ReportPage(w.regions[d].index.processed + |page|, page[|page| - 1]))))
  {
    hide StoresInv, FileOk, PageFits, A.PrefixIndexed, A.Page, A.Rows, A.Appended;
    AppendFacts(w, d);
    AppendedOk(w.store.files[w.regions[d].artifact], w.regions[d].index.processed, w.regions[d].index.last,
               w.regions[d].index.vectors);
    PutPartial(w, d, after, w.regions[d].index.processed + |page|, page[|page| - 1]);
  }

  lemma AppendStores(w: World, d: DocId)
    requires StoresInv(w) && d in w.regions && w.regions[d].Rebuilding? && w.regions[d].index.Append?
    requires w.regions[d].artifact in w.store.files
    ensures StoresInv(AppendPage(w, d, w.regions[d], w.regions[d].index.processed, w.regions[d].index.last,
                                 w.regions[d].index.vectors))
  {
    hide StoresInv, A.Page, A.Rows, A.Appended;
    var file := w.store.files[w.regions[d].artifact];
    var page := A.Page(file.chunks, w.regions[d].index.last, BATCH_SIZE);
    if PageFits(page, w.regions[d].index.vectors) {
      AppendFits(w, d, page, A.Appended(file, A.Rows(file.chunks, page), w.regions[d].index.vectors, MODEL));
    } else {
      MovePhase(w, d, RestoreFile(PreparationFailed));
    }
  }

  lemma OpenStores(w: World, d: DocId)
    requires StoresInv(w) && d in w.regions && w.regions[d].Rebuilding? && w.regions[d].index.Open?
    requires w.regions[d].artifact in w.store.files
    ensures StoresInv(Enter(PutFile(w, w.regions[d].artifact, A.Cleared(w.store.files[w.regions[d].artifact])), d,
                            w.regions[d].(index := ReportOpen)))
  {
    var file := w.store.files[w.regions[d].artifact];
    assert RegionOk(w.store, d, w.regions[d]) && FileOk(file);
    A.ClearedStarts(file, MODEL);
    assert FileOk(A.Cleared(file));
    hide FileOk, A.PrefixIndexed, A.Complete;
    PutFileStores(w, d, A.Cleared(file), ReportOpen);
  }

  lemma MarkFacts(w: World, d: DocId)
    requires StoresInv(w) && d in w.regions && w.regions[d].Rebuilding? && w.regions[d].index.MarkReady?
    ensures var a := w.regions[d].artifact;
      a in w.store.files && A.Complete(w.store.files[a]) && FileOk(w.store.files[a])
  {
    RegionAt(w, d);
    hide StoresInv;
    assert FileOk(w.store.files[w.regions[d].artifact]);
  }

  lemma MarkedOk(file: A.ArtifactFile)
    requires A.Complete(file) && FileOk(file)
    ensures A.Complete(file.(mark := A.IndexReady)) && FileOk(file.(mark := A.IndexReady))
  {
  }

  lemma MarkReadyStores(w: World, d: DocId)
    requires StoresInv(w) && d in w.regions && w.regions[d].Rebuilding? && w.regions[d].index.MarkReady?
    ensures w.regions[d].artifact in w.store.files
    ensures StoresInv(Enter(PutFile(w, w.regions[d].artifact, w.store.files[w.regions[d].artifact].(mark := A.IndexReady)),
                            d, w.regions[d].(index := OpenGate)))
  {
    hide StoresInv, FileOk, A.Complete;
    MarkFacts(w, d);
    MarkedOk(w.store.files[w.regions[d].artifact]);
    PutFileStores(w, d, w.store.files[w.regions[d].artifact].(mark := A.IndexReady), OpenGate);
  }

  lemma ValidateStores(w: World, d: DocId, ok: bool)
    requires StoresInv(w) && d in w.regions && w.regions[d].Rebuilding? && w.regions[d].index.Validate?
    ensures StoresInv(Enter(w, d, w.regions[d].(index := if ok then MarkReady else RestoreFile(PreparationFailed))))
  {
    hide StoresInv, A.PrefixIndexed, A.Complete, Finished, Enter;
    if ok {
      FullFinished(w, d, w.regions[d].index.last);
      MovePhase(w, d, MarkReady);
    } else {
      MovePhase(w, d, RestoreFile(PreparationFailed));
    }
  }

  lemma FullFinished(w: World, d: DocId, last: int)
    requires StoresInv(w) && d in w.regions && w.regions[d].Rebuilding? && w.regions[d].index == Validate(last)
    ensures Finished(w.store, w.regions[d].artifact)
  {
    assert RegionOk(w.store, d, w.regions[d]);
    var file := w.store.files[w.regions[d].artifact];
    assert FileOk(file);
    A.FullPrefixIsComplete(file, last, MODEL);
  }

  lemma IndexFileStores(w: World, d: DocId)
    requires StoresInv(w) && d in w.regions && w.regions[d].Rebuilding? && IsFileStep(w.regions[d].index)
    ensures StoresInv(IndexFileStep(w, d, w.regions[d]))
  {
    var r := w.regions[d];
    hide StoresInv, A.Complete, A.Validates, AppendPage, A.Cleared;
    if r.index.RestoreFile? {
      RestoreFileStores(w, d);
    } else if r.artifact !in w.store.files || |w.store.files[r.artifact].chunks| == 0 {
      MovePhase(w, d, RestoreFile(PreparationFailed));
    } else {
      match r.index
      case Append(_, _, _) => AppendStores(w, d);
      case Open => OpenStores(w, d);
      case MarkReady => MarkReadyStores(w, d);
      case Validate(_) => ValidateStores(w, d, A.Validates(w.store.files[r.artifact], Total(w, r.artifact), MODEL));
    }
  }

  lemma RestoreKeeps(file: A.ArtifactFile)
    ensures A.Complete(file.(mark := A.NotIndexed)) <==> A.Complete(file)
  {
  }

  lemma RestoredStore(w: World, d: DocId)
    requires StoresInv(w) && d in w.regions && w.regions[d].Rebuilding? && w.regions[d].artifact in w.store.files
    ensures var a := w.regions[d].artifact;
      var s := PutFile(w, a, w.store.files[a].(mark := A.NotIndexed)).store;
      StoreOk(s) && StoreBelow(s, w.next)
  {
    var a := w.regions[d].artifact;
    var file := w.store.files[a].(mark := A.NotIndexed);
    RegionAt(w, d);
    assert FileOk(w.store.files[a]);
    RestoreKeeps(w.store.files[a]);
    hide FileOk, A.Complete, StoresInv, RegionOk;
    forall e | e in w.store.docs && w.store.docs[e].gate == Gate.IndexReady && w.store.docs[e].active == Some(a)
      ensures A.Complete(file)
    {
      assert DocOk(w.store, e);
    }
    FileStaysOk(w.store.files[a]);
    PutFileOk(w.store, a, file);
  }

  lemma FileStaysOk(file: A.ArtifactFile)
    requires FileOk(file)
    ensures FileOk(file.(mark := A.NotIndexed))
  {
  }

  /** The handler's best-effort write changes no table, so an open gate stays truthful. */
  lemma RestoreFileStores(w: World, d: DocId)
    requires StoresInv(w) && d in w.regions && w.regions[d].Rebuilding? && w.regions[d].index.RestoreFile?
    ensures StoresInv(IndexFileStep(w, d, w.regions[d]))
  {
    var r := w.regions[d];
    var a := r.artifact;
    if a in w.store.files {
      var file := w.store.files[a].(mark := A.NotIndexed);
      RestoredStore(w, d);
      PutFileLocal(w, d, file);
      RegionAt(w, d);
      KnownArtifacts(w);
      hide FileOk, A.Complete, StoresInv, StoreOk, StoreBelow, Local;
      Assemble(w, Enter(PutFile(w, a, file), d, r.(index := RestoreGate(r.index.code))), d, w.next);
    } else {
      hide StoresInv;
      MovePhase(w, d, RestoreGate(r.index.code));
    }
  }

  /** A catalog transaction of the rebuild at `d`, then the next phase. */
  lemma EnterWith(w: World, t: Store, d: DocId, index: IndexPhase)
    requires StoresInv(w) && d in w.regions && w.regions[d].Rebuilding?
    requires Local(w.store, t, d, w.next) && StoreOk(t) && StoreBelow(t, w.next)
    requires RebuildOk(t, d, w.regions[d].artifact, w.regions[d].activate, index) && d in t.docs
    ensures StoresInv(Enter(w.(store := t), d, w.regions[d].(index := index)))
  {
    hide StoreOk, StoreBelow, RebuildOk, Local;
    Assemble(w, Enter(w.(store := t), d, w.regions[d].(index := index)), d, w.next);
  }

  lemma GateRebuild(w: World, d: DocId, gate: Gate, error: Option<Code>, index: IndexPhase)
    requires StoresInv(w) && d in w.regions && w.regions[d].Rebuilding? && gate != Gate.IndexReady
    requires index.CheckStart? || index.FailJob?
    ensures var r := w.regions[d]; var t := if r.activate then SetGateOf(w, d, gate, error).store else w.store;
      d in t.docs && RebuildOk(t, d, r.artifact, r.activate, index)
  {
    RegionAt(w, d);
    hide StoresInv, StoreOk, StoreBelow, A.Complete, A.PrefixIndexed;
  }

  lemma GateStores(w: World, d: DocId, gate: Gate, error: Option<Code>, index: IndexPhase)
    requires StoresInv(w) && d in w.regions && w.regions[d].Rebuilding? && gate != Gate.IndexReady
    requires index.CheckStart? || index.FailJob?
    ensures StoresInv(Enter(if w.regions[d].activate then SetGateOf(w, d, gate, error) else w, d,
                            w.regions[d].(index := index)))
  {
    var r := w.regions[d];
    RegionAt(w, d);
    GateOk(w, d, gate, error);
    SetGateShape(w, d, gate, error);
    GateRebuild(w, d, gate, error, index);
    var t := if r.activate then SetGateOf(w, d, gate, error).store else w.store;
    hide StoresInv, StoreOk, RebuildOk, SetGateOf, RegionOk;
    EnterWith(w, t, d, index);
  }

  /** Opening the gate over a complete index. */
  lemma OpenedOk(s: Store, d: DocId, a: ArtId, activate: bool, x: ArtId)
    requires StoreOk(s) && d in s.docs && Owns(s, d, a) && Queryable(s, a)
    ensures var t := Opened(s, d, a, activate);
      && StoreOk(t) && Local(s, t, d, x) && d in t.docs && Owns(t, d, a)
      && t.files == s.files && t.removed == s.removed && t.arts.Keys == s.arts.Keys
      && (!activate ==> t.docs == s.docs)
  {
    PutArtOk(s, a, s.arts[a].(ready := true));
    var t := s.(arts := s.arts[a := s.arts[a].(ready := true)]);
    PutDocOk(t, d, Document(Gate.IndexReady, Some(a), None));
  }

  lemma OpenGateStores(w: World, d: DocId)
    requires StoresInv(w) && d in w.regions && w.regions[d].Rebuilding? && w.regions[d].index.OpenGate?
    ensures StoresInv(Enter(w.(store := Opened(w.store, d, w.regions[d].artifact, w.regions[d].activate)), d,
                            w.regions[d].(index := Succeed)))
  {
    OpenGateFacts(w, d);
    hide StoresInv, Opened, StoreOk, StoreBelow, Local, RebuildOk;
    EnterWith(w, Opened(w.store, d, w.regions[d].artifact, w.regions[d].activate), d, Succeed);
  }

  lemma OpenGateFacts(w: World, d: DocId)
    requires StoresInv(w) && d in w.regions && w.regions[d].Rebuilding? && w.regions[d].index.OpenGate?
    ensures var t := Opened(w.store, d, w.regions[d].artifact, w.regions[d].activate);
      && Local(w.store, t, d, w.next) && StoreOk(t) && StoreBelow(t, w.next) && d in t.docs
      && RebuildOk(t, d, w.regions[d].artifact, w.regions[d].activate, Succeed)
  {
    RegionAt(w, d);
    hide StoresInv, StoreOk, StoreBelow, Local, Opened, RebuildOk, IndexOk;
    OpenedRebuild(w.store, d, w.regions[d].artifact, w.regions[d].activate, w.next);
  }

  lemma OpenGateKnows(s: Store, d: DocId, a: ArtId, activate: bool)
    requires RebuildOk(s, d, a, activate, OpenGate)
    ensures d in s.docs && Owns(s, d, a) && Queryable(s, a) && (!activate ==> s.docs[d].active != Some(a))
  {
  }

  lemma OpenedRebuild(s: Store, d: DocId, a: ArtId, activate: bool, next: nat)
    requires StoreOk(s) && StoreBelow(s, next) && RebuildOk(s, d, a, activate, OpenGate)
    ensures var t := Opened(s, d, a, activate);
      Local(s, t, d, next) && StoreOk(t) && StoreBelow(t, next) && d in t.docs && RebuildOk(t, d, a, activate, Succeed)
  {
    hide Opened, StoreOk, Local, Owns, Queryable;
    assert d in s.docs && Owns(s, d, a) && Queryable(s, a) && (!activate ==> s.docs[d].active != Some(a)) by {
      OpenGateKnows(s, d, a, activate);
      hide RebuildOk;
    }
    OpenedOk(s, d, a, activate, next);
  }

  lemma IndexCatalogStores(w: World, d: DocId)
    requires StoresInv(w) && d in w.regions && w.regions[d].Rebuilding?
    requires !IsCheck(w.regions[d].index) && !IsReport(w.regions[d].index) && !IsFileStep(w.regions[d].index)
    requires !w.regions[d].index.Embed?
    ensures StoresInv(IndexCatalogStep(w, d, w.regions[d]))
  {
    var r := w.regions[d];
    if r.index.CloseGate? {
      hide StoresInv, SetGateOf;
      GateStores(w, d, Gate.Indexing, None, CheckStart);
    } else if r.index.OpenGate? {
      hide StoresInv, Opened;
      OpenGateStores(w, d);
    } else if r.index.RestoreGate? {
      hide StoresInv, SetGateOf;
      GateStores(w, d, Gate.PreparedNotIndexed, Some(r.index.code), FailJob(r.index.code));
    } else if r.index.FailJob? {
      var code := r.index.code;
      UpdateJobShape(w, r.job, FailState(code), FailStage(code), 100, Some(code));
      hide StoresInv, UpdateJob, Raise, FailState, FailStage;
      var u := UpdateJob(w, r.job, FailState(code), FailStage(code), 100, Some(code));
      FrameStores(w, u);
      RaiseStores(u, d, r.job, code);
    } else if r.index.Succeed? {
      UpdateJobShape(w, r.job, Succeeded, Stage.IndexReady, 100, None);
      hide StoresInv, UpdateJob;
      AssembleSame(w, IndexCatalogStep(w, d, r), d);
    } else {
      hide StoresInv, Attached;
      MovePhase(w, d, CloseGate);
      FrameStores(Enter(w, d, r.(index := CloseGate)), IndexCatalogStep(w, d, r));
    }
  }

  lemma IndexThrowStores(w: World, d: DocId, code: Code)
    requires StoresInv(w) && d in w.regions && w.regions[d].Rebuilding?
    ensures StoresInv(IndexThrow(w, d, w.regions[d], code))
  {
    var r := w.regions[d];
    hide StoresInv;
    if r.index.Attach? || r.index.CloseGate? || r.index.RestoreGate? || r.index.FailJob? {
      RaiseStores(w, d, r.job, code);
      hide Raise;
    } else if r.index.RestoreFile? {
      MovePhase(w, d, RestoreGate(r.index.code));
    } else {
      MovePhase(w, d, RestoreFile(code));
    }
  }

  lemma RemoveFilesBelow(w: World, gone: set<ArtId>)
    requires StoreBelow(w.store, w.next) && forall a | a in gone :: a in w.store.files
    ensures StoreBelow(RemoveFiles(w, gone).store, w.next)
  {
  }

  lemma RemoveStores(w: World, d: DocId, gone: set<ArtId>, delete: DeletePhase)
    requires StoresInv(w) && d in w.regions && w.regions[d].Deleting?
    requires forall a | a in gone :: a in w.store.files && w.store.files[a].directory == d
    ensures StoresInv(Enter(RemoveFiles(w, gone), d, Deleting(delete)))
  {
    RegionAt(w, d);
    KnownArtifacts(w);
    hide StoresInv;
    RemoveFilesOk(w, d, gone);
    RemoveFilesBelow(w, gone);
    hide StoreOk, StoreBelow, Local;
    Assemble(w, Enter(RemoveFiles(w, gone), d, Deleting(delete)), d, w.next);
  }

  lemma RemoveRowsStores(w: World, d: DocId)
    requires StoresInv(w) && d in w.regions && w.regions[d] == Deleting(RemoveRows)
    ensures StoresInv(DeleteProceed(w, d, w.regions[d]))
  {
    RegionAt(w, d);
    KnownArtifacts(w);
    RemoveRowsOk(w.store, d, w.next);
    hide StoresInv, StoreOk, Local, DeletedFor;
    Assemble(w, DeleteProceed(w, d, w.regions[d]), d, w.next);
  }

  lemma DeleteStores(w: World, d: DocId, act: Act)
    requires StoresInv(w) && ActAllowed(w, d, act) && w.regions[d].Deleting?
    ensures StoresInv(RegionNext(w, d, act))
  {
    var r := w.regions[d];
    if act.Remove? {
      hide StoresInv;
      RemoveStores(w, d, act.gone, RemoveTrees);
      assert Enter(RemoveFiles(w, act.gone), d, Deleting(RemoveTrees)) == RemoveFiles(w, act.gone);
      hide RemoveFiles;
    } else if act.Proceed? && r.delete.RemoveTrees? {
      hide StoresInv, RemoveFiles;
      RemoveStores(w, d, (set a | a in w.store.files && w.store.files[a].directory == d), RemoveRows);
    } else if act.Proceed? && r.delete.RemoveRows? {
      hide StoresInv, DeleteProceed;
      RemoveRowsStores(w, d);
    } else {
      RegionAt(w, d);
      hide StoresInv, StoreOk, StoreBelow, CancelledFor;
      AssembleSame(w, RegionNext(w, d, act), d);
    }
  }

  lemma RegionStores(w: World, d: DocId, act: Act)
    requires StoresInv(w) && ActAllowed(w, d, act)
    ensures StoresInv(RegionNext(w, d, act))
  {
    var r := w.regions[d];
    hide StoresInv;
    match r
    case Preparing(_, _, _, _, _, _) => PrepStores(w, d, act);
    case Deleting(_) => DeleteStores(w, d, act);
    case Rebuilding(_, _, _, index) =>
      match act
      case Throw(code) => IndexThrowStores(w, d, code);
      case Vectors(vs) => VectorStores(w, d, vs);
      case Proceed =>
        if IsCheck(index) { IndexCheckStores(w, d); }
        else if IsReport(index) { IndexReportStores(w, d); }
        else if IsFileStep(index) { IndexFileStores(w, d); }
        else { IndexCatalogStores(w, d); }
  }

  lemma VectorStores(w: World, d: DocId, vs: seq<A.Vector>)
    requires StoresInv(w) && d in w.regions && w.regions[d].Rebuilding? && w.regions[d].index.Embed?
    ensures StoresInv(Enter(w, d, w.regions[d].(index := CheckPage(w.regions[d].index.processed, w.regions[d].index.last, vs))))
  {
    assert RegionOk(w.store, d, w.regions[d]);
    MovePhase(w, d, CheckPage(w.regions[d].index.processed, w.regions[d].index.last, vs));
  }

  // ---------- the other steps and the stores ----------

  /** Entering a region leaves the stores as they are. */
  lemma EnterStores(w: World, d: DocId, r: Region, next: nat)
    requires StoresInv(w) && d !in w.regions && RegionOk(w.store, d, r) && w.next <= next
    requires r.Preparing? ==> r.artifact == w.next < next
    ensures StoresInv(Enter(w, d, r).(next := next))
  {
    Assemble(w, Enter(w, d, r).(next := next), d, w.next);
  }

  lemma BeginPrepareStores(w: World, d: DocId, job: Option<JobId>, activate: bool, hadActive: bool, chunks: A.Chunks)
    requires StoresInv(w) && d !in w.regions && d in w.store.docs && Chunked(chunks)
    ensures StoresInv(Enter(w, d, Preparing(job, w.next, activate, hadActive, chunks, Bind)).(next := w.next + 1))
  {
    EnterStores(w, d, Preparing(job, w.next, activate, hadActive, chunks, Bind), w.next + 1);
  }

  lemma BeginIndexStores(w: World, d: DocId, job: Option<JobId>, a: ArtId, activate: bool)
    requires StoresInv(w) && d !in w.regions && d in w.store.docs && Owns(w.store, d, a)
    requires activate || w.store.docs[d].active != Some(a)
    ensures StoresInv(Enter(w, d, Rebuilding(job, a, activate, Attach)))
  {
    EnterStores(w, d, Rebuilding(job, a, activate, Attach), w.next);
  }

  lemma ActivateStores(w: World, d: DocId, a: ArtId)
    requires StoresInv(w) && Enabled(w, ActivateArtifact(d, a))
    ensures StoresInv(Next(w, ActivateArtifact(d, a)))
  {
    assert FileOk(w.store.files[a]);
    OpenedOk(w.store, d, a, true, w.next);
    hide StoreOk, Opened;
    Assemble(w, Next(w, ActivateArtifact(d, a)), d, w.next);
  }

  lemma AcceptStores(w: World, d: DocId)
    requires StoresInv(w) && d !in w.store.docs && d !in w.regions
    ensures StoresInv(PutDoc(w, d, Document(Gate.Accepted, None, None)))
  {
    PutDocOk(w.store, d, Document(Gate.Accepted, None, None));
    hide StoreOk;
    Assemble(w, PutDoc(w, d, Document(Gate.Accepted, None, None)), d, w.next);
  }

  /** Closing a gate disturbs no region. */
  lemma GateRegion(s: Store, t: Store, d: DocId, e: DocId, r: Region)
    requires RegionOk(s, e, r) && d in s.docs && d in t.docs && t == s.(docs := s.docs[d := t.docs[d]])
    requires t.docs[d].gate != Gate.IndexReady && t.docs[d].active == s.docs[d].active
    ensures RegionOk(t, e, r)
  {
    hide A.Complete, A.PrefixIndexed;
  }

  /** Closing a gate from outside the lock disturbs no region, not even one at the same document. */
  lemma CloseGateAnywhere(w: World, d: DocId, gate: Gate, error: Option<Code>)
    requires StoresInv(w) && gate != Gate.IndexReady
    ensures StoresInv(SetGateOf(w, d, gate, error))
  {
    var v := SetGateOf(w, d, gate, error);
    if d in w.store.docs {
      GateOk(w, d, gate, error);
      hide StoreOk;
      forall e | e in v.regions ensures RegionOk(v.store, e, v.regions[e]) {
        RegionAt(w, e);
        hide StoresInv, StoreBelow, RegionOk;
        GateRegion(w.store, v.store, d, e, w.regions[e]);
      }
      hide RegionOk;
    }
  }

  ghost predicate StoresFrame(w: World, v: World) {
    v.store == w.store && v.regions == w.regions && w.next <= v.next
  }

  lemma FrameStores(w: World, v: World)
    requires StoresInv(w) && StoresFrame(w, v)
    ensures StoresInv(v)
  {
  }

  lemma WorkStores(w: World, ok: bool)
    requires StoresInv(w) && Outside(w.worker)
    ensures StoresInv(if ok then WorkNext(w) else WorkThrow(w))
  {
    var v := if ok then WorkNext(w) else WorkThrow(w);
    hide StoresInv;
    if ok && w.worker.ResetGate? {
      var u := SetGateOf(w, w.worker.document, Gate.PreparedNotIndexed, None);
      CloseGateAnywhere(w, w.worker.document, Gate.PreparedNotIndexed, None);
      FrameStores(u, v);
    } else {
      FrameStores(w, v);
    }
  }

  lemma EnterPrepareStores(w: World, chunks: A.Chunks)
    requires StoresInv(w) && Enabled(w, WorkPrepare(chunks))
    ensures StoresInv(Next(w, WorkPrepare(chunks)))
  {
    var j, d := w.worker.job, w.worker.document;
    var v := Next(w, WorkPrepare(chunks));
    if d in w.store.docs && JobMatches(w, j, d) {
      BeginPrepareStores(w, d, Some(j), true, w.store.docs[d].active.Some?, chunks);
      hide StoresInv;
      FrameStores(Enter(w, d, Preparing(Some(j), w.next, true, w.store.docs[d].active.Some?, chunks, Bind))
                  .(next := w.next + 1), v);
    } else {
      FrameStores(w, v);
    }
  }

  lemma EnterIndexStores(w: World)
    requires StoresInv(w) && Enabled(w, WorkIndex)
    ensures StoresInv(Next(w, WorkIndex))
  {
    var j, d := w.worker.job, w.worker.document;
    var v := Next(w, WorkIndex);
    if v.worker.InRegion? {
      var a := w.store.docs[d].active.value;
      BeginIndexStores(w, d, Some(j), a, true);
      hide StoresInv;
      FrameStores(Enter(w, d, Rebuilding(Some(j), a, true, Attach)), v);
    } else {
      FrameStores(w, v);
    }
  }

  lemma CrashStores(w: World)
    requires StoresInv(w)
    ensures StoresInv(w.(worker := Down, regions := map[]))
  {
  }

  /** Every step keeps the stores' invariant. */
  lemma StepStores(w: World, s: Step)
    requires StoresInv(w) && Enabled(w, s)
    ensures StoresInv(Next(w, s))
  {
    hide StoresInv, RegionNext, WorkNext, WorkThrow, EnterPrepare, EnterIndex, Opened, Enqueued, CancelRequestedFor, Claimed;
    match s
    case Region(d, act) => RegionStores(w, d, act);
    case Accept(d) => AcceptStores(w, d);
    case ActivateArtifact(d, a) => ActivateStores(w, d, a);
    case BeginPrepare(d, chunks, activate) =>
      BeginPrepareStores(w, d, None, activate, w.store.docs[d].active.Some?, chunks);
    case BeginIndex(d, artifact, activate) =>
      BeginIndexStores(w, d, None, if artifact.Some? then artifact.value else w.store.docs[d].active.value, activate);
    case BeginDelete(d) => EnterStores(w, d, Deleting(CancelJobs), w.next);
    case ForceReindex(d) => CloseGateAnywhere(w, d, Gate.PreparedNotIndexed, None);
    case Work(ok) => WorkStores(w, ok);
    case WorkPrepare(chunks) => EnterPrepareStores(w, chunks);
    case WorkIndex => EnterIndexStores(w);
    case Crash => CrashStores(w);
    case EnqueuePipeline(_, _) => FrameStores(w, Next(w, s));
    case RequestCancel(_) => FrameStores(w, Next(w, s));
    case Start => FrameStores(w, Next(w, s));
    case Stop => FrameStores(w, Next(w, s));
    case Claim(_) => FrameStores(w, Next(w, s));
  }
}
