/** When an open query gate has its file, and who opens a gate. */
module PipelineGate {
  import opened Wrappers
  import opened LocalJobs
  import opened DocumentPipeline
  import opened PipelineSafety
  import opened PipelineFrames
  import opened PipelineJobs
  import opened PipelineTheorems
  import opened PipelineRegions
  import A = ArtifactIndex

  // ---------- which step takes a file ----------

  /** The step removes the file of `a`, as part of deleting the document it belongs to. */
  predicate Takes(w: World, s: Step, a: ArtId) {
    && s.Region? && s.d in w.regions && w.regions[s.d] == Deleting(RemoveTrees)
    && a in w.store.files && w.store.files[a].directory == s.d
    && (s.act.Proceed? || (s.act.Remove? && a in s.act.gone))
  }

  /** A step of a deletion of `d` that removes files. */
  predicate TreeStep(w: World, s: Step, d: DocId) {
    && s.Region? && s.d == d && d in w.regions && w.regions[d] == Deleting(RemoveTrees)
    && (s.act.Proceed? || s.act.Remove?)
  }

  lemma IndexRemovesNothing(w: World, d: DocId, act: Act)
    requires ActAllowed(w, d, act) && w.regions[d].Rebuilding?
    ensures RegionNext(w, d, act).store.removed == w.store.removed
    ensures forall a | a in RegionNext(w, d, act).store.arts ::
      a in w.store.arts && RegionNext(w, d, act).store.arts[a].document == w.store.arts[a].document
  {
    IndexFrame(w, d, act);
    CatalogKeepsOwners(w, d);
    hide RegionNext, Framed, CatalogStore;
  }

  lemma CatalogKeepsOwners(w: World, d: DocId)
    requires d in w.regions && w.regions[d].Rebuilding?
    ensures var t := CatalogStore(w, d, w.regions[d]);
      && t.removed == w.store.removed
      && forall a | a in t.arts :: a in w.store.arts && t.arts[a].document == w.store.arts[a].document
  {
  }

  lemma PrepRemovesNothing(w: World, d: DocId, act: Act)
    requires ActAllowed(w, d, act) && w.regions[d].Preparing?
    ensures RegionNext(w, d, act).store.removed == w.store.removed
    ensures forall a | a in RegionNext(w, d, act).store.arts ::
      (a in w.store.arts && RegionNext(w, d, act).store.arts[a].document == w.store.arts[a].document)
      || (w.regions[d].prep.Register? && a == w.regions[d].artifact)
  {
    PrepFrame(w, d, act);
    hide RegionNext, Framed;
  }

  /** The removed artifacts are exactly those some step took. */
  lemma RemovedExact(w: World, s: Step, a: ArtId)
    requires Enabled(w, s)
    ensures a in Next(w, s).store.removed <==> a in w.store.removed || Takes(w, s, a)
  {
    if s.Region? {
      if w.regions[s.d].Preparing? { PrepRemovesNothing(w, s.d, s.act); hide RegionNext; }
      else if w.regions[s.d].Rebuilding? { IndexRemovesNothing(w, s.d, s.act); hide RegionNext; }
    }
  }

  ghost predicate Taken(w: World, run: seq<Step>, a: ArtId)
    requires Valid(w, run)
    decreases |run|
  {
    run != [] && (Takes(w, run[0], a) || Taken(Next(w, run[0]), run[1..], a))
  }

  lemma {:induction false} RunRemoved(w: World, run: seq<Step>, a: ArtId)
    requires Valid(w, run)
    ensures a in After(w, run).store.removed <==> a in w.store.removed || Taken(w, run, a)
    decreases |run|
  {
    if run != [] {
      RemovedExact(w, run[0], a);
      hide Next, Enabled, Takes;
      RunRemoved(Next(w, run[0]), run[1..], a);
    }
  }

  /** After every run, crashes included: the file behind an open gate is there, and complete, if and only if no step of
      a deletion of its document took it. */
  lemma FileThereIff(run: seq<Step>, d: DocId)
    requires Valid(EMPTY, run) && var s := After(EMPTY, run).store; d in s.docs && s.docs[d].gate == Gate.IndexReady
    ensures var s := After(EMPTY, run).store;
      && s.docs[d].active.Some? && Owns(s, d, s.docs[d].active.value)
      && var a := s.docs[d].active.value;
         (if Taken(EMPTY, run, a) then a !in s.files else a in s.files && A.Complete(s.files[a]))
  {
    var w := After(EMPTY, run);
    assert Reachable(w);
    QueryGate(w, d);
    RunRemoved(EMPTY, run, w.store.docs[d].active.value);
  }

  // ---------- a document nobody deletes ----------

  /** No artifact of `d` has lost its file. */
  predicate NotMine(s: Store, a: ArtId, d: DocId) {
    a in s.removed ==> !(a in s.arts && s.arts[a].document == d)
  }

  lemma DeleteNotMine(w: World, e: DocId, act: Act, a: ArtId, d: DocId)
    requires StoresInv(w) && ActAllowed(w, e, act) && w.regions[e].Deleting? && !TreeStep(w, Step.Region(e, act), d)
    requires NotMine(w.store, a, d)
    ensures NotMine(RegionNext(w, e, act).store, a, d)
  {
    if a in w.store.arts { assert ArtOk(w.store, a); }
    hide StoresInv;
  }

  lemma PrepNotMine(w: World, e: DocId, act: Act, a: ArtId, d: DocId)
    requires StoresInv(w) && ActAllowed(w, e, act) && w.regions[e].Preparing? && NotMine(w.store, a, d)
    ensures NotMine(RegionNext(w, e, act).store, a, d)
  {
    RegionAt(w, e);
    PrepRemovesNothing(w, e, act);
    hide StoresInv, RegionNext, StoreOk, StoreBelow;
  }

  lemma StepNotMine(w: World, s: Step, a: ArtId, d: DocId)
    requires StoresInv(w) && Enabled(w, s) && !TreeStep(w, s, d) && NotMine(w.store, a, d)
    ensures NotMine(Next(w, s).store, a, d)
  {
    if s.Region? {
      if w.regions[s.d].Preparing? { PrepNotMine(w, s.d, s.act, a, d); hide RegionNext; }
      else if w.regions[s.d].Rebuilding? { IndexRemovesNothing(w, s.d, s.act); hide RegionNext, StoresInv; }
      else { DeleteNotMine(w, s.d, s.act, a, d); hide RegionNext; }
    } else {
      StepApart(w, s);
      hide StoresInv, Next, Enabled, TreeStep;
    }
  }

  /** No deletion of `d` reaches its files in this run. */
  ghost predicate NoTreeStep(w: World, run: seq<Step>, d: DocId)
    requires Valid(w, run)
    decreases |run|
  {
    run == [] || (!TreeStep(w, run[0], d) && NoTreeStep(Next(w, run[0]), run[1..], d))
  }

  lemma {:induction false} RunNotMine(w: World, run: seq<Step>, a: ArtId, d: DocId)
    requires Inv(w) && Valid(w, run) && NoTreeStep(w, run, d) && NotMine(w.store, a, d)
    ensures Inv(After(w, run)) && NotMine(After(w, run).store, a, d)
    decreases |run|
  {
    if run != [] {
      StepNotMine(w, run[0], a, d);
      StepInv(w, run[0]);
      hide Inv, Next, Enabled, TreeStep, NotMine;
      RunNotMine(Next(w, run[0]), run[1..], a, d);
    }
  }

  /** If no deletion of `d` has reached its files since its active artifact was registered, an open gate means that the
      file is there and complete. */
  lemma UndeletedIsQueryable(w: World, run: seq<Step>, d: DocId, a: ArtId)
    requires Reachable(w) && Valid(w, run) && NoTreeStep(w, run, d) && a !in w.store.arts
    requires var s := After(w, run).store; d in s.docs && s.docs[d].gate == Gate.IndexReady && s.docs[d].active == Some(a)
    ensures var s := After(w, run).store; a in s.files && A.Complete(s.files[a])
  {
    ReachableInv(w);
    RunNotMine(w, run, a, d);
    var v := After(w, run);
    assert DocOk(v.store, d);
    assert ArtOk(v.store, a);
  }

  predicate BeingDeleted(w: World, d: DocId) {
    d in w.regions && w.regions[d].Deleting?
  }

  /** Only `delete_document` starts a deletion. */
  lemma DeletionBegins(w: World, s: Step, d: DocId)
    requires Enabled(w, s) && !BeingDeleted(w, d) && s != BeginDelete(d)
    ensures !BeingDeleted(Next(w, s), d) && !TreeStep(w, s, d)
  {
    if s.Region? {
      RegionElsewhere(w, s.d, s.act);
      if s.d == d { StaysUndeleted(w, d, s.act); }
      hide RegionNext;
    }
  }

  lemma StaysUndeleted(w: World, d: DocId, act: Act)
    requires ActAllowed(w, d, act) && !w.regions[d].Deleting?
    ensures !BeingDeleted(RegionNext(w, d, act), d)
  {
    RegionFrame(w, d, act);
    hide RegionNext;
  }

  lemma {:induction false} RunUndeleted(w: World, run: seq<Step>, d: DocId)
    requires Valid(w, run) && !BeingDeleted(w, d) && forall i | 0 <= i < |run| :: run[i] != BeginDelete(d)
    ensures NoTreeStep(w, run, d)
    decreases |run|
  {
    if run != [] {
      DeletionBegins(w, run[0], d);
      hide Next, Enabled, TreeStep, BeingDeleted;
      RunUndeleted(Next(w, run[0]), run[1..], d);
    }
  }

  /** For the caller: as long as nobody asks to delete `d` after its active artifact was registered, INDEX_READY means a
      complete index on disk, whatever crashes and restarts. */
  lemma NobodyDeletes(w: World, run: seq<Step>, d: DocId, a: ArtId)
    requires Reachable(w) && Valid(w, run) && a !in w.store.arts && !BeingDeleted(w, d)
    requires forall i | 0 <= i < |run| :: run[i] != BeginDelete(d)
    requires var s := After(w, run).store; d in s.docs && s.docs[d].gate == Gate.IndexReady && s.docs[d].active == Some(a)
    ensures var s := After(w, run).store; a in s.files && A.Complete(s.files[a])
  {
    RunUndeleted(w, run, d);
    UndeletedIsQueryable(w, run, d, a);
  }

  // ---------- who opens a gate ----------

  predicate GateOpen(s: Store, d: DocId) {
    d in s.docs && s.docs[d].gate == Gate.IndexReady && s.docs[d].active.Some?
  }

  /** The steps that open the gate of `d`: the end of a rebuild that activates, and activating another artifact. */
  predicate Opens(w: World, s: Step, d: DocId) {
    match s
    case ActivateArtifact(e, _) => e == d
    case Region(e, act) =>
      && e == d && act.Proceed? && d in w.regions && w.regions[d].Rebuilding?
      && w.regions[d].index.OpenGate? && w.regions[d].activate
    case _ => false
  }

  lemma PrepOpensNothing(w: World, e: DocId, act: Act, d: DocId)
    requires StoresInv(w) && ActAllowed(w, e, act) && w.regions[e].Preparing? && !GateOpen(w.store, d)
    ensures !GateOpen(RegionNext(w, e, act).store, d)
  {
    RegionAt(w, e);
    PrepFrame(w, e, act);
    hide StoresInv, StoreOk, StoreBelow, Known, Chunked, RegionNext, Framed;
  }

  lemma CatalogOpens(w: World, e: DocId, d: DocId)
    requires e in w.regions && w.regions[e].Rebuilding? && !GateOpen(w.store, d) && !Opens(w, Step.Region(e, Proceed), d)
    ensures !GateOpen(CatalogStore(w, e, w.regions[e]), d)
  {
  }

  lemma IndexOpens(w: World, e: DocId, act: Act, d: DocId)
    requires ActAllowed(w, e, act) && w.regions[e].Rebuilding? && !GateOpen(w.store, d) && !Opens(w, Step.Region(e, act), d)
    ensures !GateOpen(RegionNext(w, e, act).store, d)
  {
    IndexFrame(w, e, act);
    if act.Proceed? { CatalogOpens(w, e, d); }
    hide RegionNext, Framed, CatalogStore;
  }

  lemma DeleteOpens(w: World, e: DocId, act: Act, d: DocId)
    requires ActAllowed(w, e, act) && w.regions[e].Deleting? && !GateOpen(w.store, d)
    ensures !GateOpen(RegionNext(w, e, act).store, d)
  {
    hide CancelledFor, DeletedFor;
  }

  lemma WorkOpens(w: World, ok: bool, d: DocId)
    requires !GateOpen(w.store, d)
    ensures !GateOpen((if ok then WorkNext(w) else WorkThrow(w)).store, d)
  {
    hide Updated, Attached, Decide, FailState, FailStage;
  }

  lemma RegionOpens(w: World, s: Step, d: DocId)
    requires StoresInv(w) && Enabled(w, s) && s.Region? && !GateOpen(w.store, d) && !Opens(w, s, d)
    ensures !GateOpen(Next(w, s).store, d)
  {
    hide StoresInv, GateOpen, RegionNext;
    if w.regions[s.d].Preparing? { PrepOpensNothing(w, s.d, s.act, d); }
    else if w.regions[s.d].Rebuilding? { IndexOpens(w, s.d, s.act, d); }
    else { DeleteOpens(w, s.d, s.act, d); }
  }

  lemma OtherOpens(w: World, s: Step, d: DocId)
    requires Enabled(w, s) && !s.Region? && !s.Work? && !GateOpen(w.store, d) && !Opens(w, s, d)
    ensures !GateOpen(Next(w, s).store, d)
  {
    hide Enqueued, CancelRequestedFor, Claimed, Reconciled, Chunked;
  }

  /** Nothing else does. */
  lemma GateStaysClosed(w: World, s: Step, d: DocId)
    requires StoresInv(w) && Enabled(w, s) && !GateOpen(w.store, d) && !Opens(w, s, d)
    ensures !GateOpen(Next(w, s).store, d)
  {
    hide StoresInv, GateOpen, RegionNext, WorkNext, WorkThrow, EnterPrepare, EnterIndex, Next, Enabled, Opens;
    if s.Region? {
      RegionOpens(w, s, d);
    } else if s.Work? {
      WorkOpens(w, s.ok, d);
      WorkIs(w, s);
    } else {
      OtherOpens(w, s, d);
    }
  }
}
