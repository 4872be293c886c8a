/** What holds in every reachable world of the document pipeline, and over every run. */
module PipelineTheorems {
  import opened Wrappers
  import opened LocalJobs
  import opened DocumentPipeline
  import opened PipelineSafety
  import opened PipelineFrames
  import opened PipelineJobs
  import A = ArtifactIndex

  // ---------- the invariant over runs ----------

  lemma EmptyInv()
    ensures Inv(EMPTY)
  {
  }

  lemma StepInv(w: World, s: Step)
    requires Inv(w) && Enabled(w, s)
    ensures Inv(Next(w, s)) && Monotone(w.jobs, Next(w, s).jobs)
  {
    StepStores(w, s);
    StepThreads(w, s);
  }

  lemma {:induction false} RunInv(w: World, run: seq<Step>)
    requires Inv(w) && Valid(w, run)
    ensures Inv(After(w, run))
    decreases |run|
  {
    if run != [] {
      StepInv(w, run[0]);
      RunInv(Next(w, run[0]), run[1..]);
    }
  }

  lemma ReachableInv(w: World)
    requires Reachable(w)
    ensures Inv(w)
  {
    var run :| Valid(EMPTY, run) && After(EMPTY, run) == w;
    EmptyInv();
    RunInv(EMPTY, run);
  }

  // ---------- the query gate ----------

  /** Wherever a run stands, crashes included: a document shown as INDEX_READY has an active artifact of its
      own, and unless a deletion has already removed that artifact's file, the file is there and holds exactly
      one validated embedding row and one lexical row per chunk. */
  lemma QueryGate(w: World, d: DocId)
    requires Reachable(w) && d in w.store.docs && w.store.docs[d].gate == Gate.IndexReady
    ensures var active := w.store.docs[d].active;
      && active.Some? && Owns(w.store, d, active.value)
      && (active.value in w.store.files <==> active.value !in w.store.removed)
      && (active.value in w.store.files ==> A.Complete(w.store.files[active.value]))
  {
    ReachableInv(w);
    assert DocOk(w.store, d);
  }

  /** The first level of the gate: an artifact that calls itself ready is complete, active or not. */
  lemma ArtifactMark(w: World, a: ArtId)
    requires Reachable(w) && a in w.store.files && w.store.files[a].mark == A.IndexReady
    ensures A.Complete(w.store.files[a])
  {
    ReachableInv(w);
    assert FileOk(w.store.files[a]);
  }

  ghost predicate Leads(w: World, v: World) {
    exists run :: Valid(w, run) && After(w, run) == v
  }

  lemma LeadsSelf(w: World)
    ensures Leads(w, w)
  {
    assert Valid(w, []) && After(w, []) == w;
  }

  lemma LeadsStep(w: World, s: Step, v: World)
    requires Enabled(w, s) && Leads(Next(w, s), v)
    ensures Leads(w, v)
  {
    var run :| Valid(Next(w, s), run) && After(Next(w, s), run) == v;
    assert ([s] + run)[1..] == run;
    assert Valid(w, [s] + run) && After(w, [s] + run) == v;
  }

  /** The exception is real: a deletion removes the files before the rows, so from any open gate it can leave
      the gate open over nothing, and a crash makes that durable. */
  lemma DeletionLeavesGateOpen(w: World, d: DocId, a: ArtId) returns (v: World)
    requires Reachable(w) && d in w.store.docs && d !in w.regions
    requires w.store.docs[d].gate == Gate.IndexReady && w.store.docs[d].active == Some(a)
    ensures Leads(w, v) && v.store.docs == w.store.docs && a !in v.store.files && v.regions == map[]
  {
    QueryGate(w, d);
    ReachableInv(w);
    assert ArtOk(w.store, a);
    hide Reachable, Inv, Leads;
    var w1 := Next(w, BeginDelete(d));
    var w2 := RegionNext(w1, d, Proceed);
    assert w2.regions[d] == Deleting(RemoveTrees) && w2.store == w.store;
    var w3 := RegionNext(w2, d, Proceed);
    DeletedFiles(w2, d, a);
    v := w3.(worker := Down, regions := map[]);
    hide RegionNext;
    LeadsSelf(v);
    LeadsStep(w3, Crash, v);
    LeadsStep(w2, Step.Region(d, Proceed), v);
    LeadsStep(w1, Step.Region(d, Proceed), v);
    LeadsStep(w, BeginDelete(d), v);
  }

  lemma DeletedFiles(w: World, d: DocId, a: ArtId)
    requires d in w.regions && w.regions[d] == Deleting(RemoveTrees)
    requires a in w.store.files ==> w.store.files[a].directory == d
    ensures var v := RegionNext(w, d, Proceed); v.store.docs == w.store.docs && a !in v.store.files
  {
  }

  // ---------- the job table ----------

  /** Each document has at most one active job, and the cancel flag and the states agree. */
  lemma JobTable(w: World)
    requires Reachable(w)
    ensures OneActivePerDocument(w.jobs)
    ensures forall j | j in w.jobs ::
      && (w.jobs[j].state == Queued ==> !w.jobs[j].cancelRequested)
      && (w.jobs[j].state == CancelRequested ==> w.jobs[j].cancelRequested)
      && (w.jobs[j].progress == 100 <==> Terminal(w.jobs[j].state))
  {
    ReachableInv(w);
  }

  /** No id is ever used again. */
  lemma StepKeepsAbsent(w: World, s: Step, j: JobId)
    requires Inv(w) && Enabled(w, s) && j < w.next && j !in w.jobs
    ensures j !in Next(w, s).jobs && j < Next(w, s).next
  {
    hide Inv, RegionNext, WorkNext, WorkThrow, Next, Enabled;
    if s.Region? {
      RegionIs(w, s);
      RegionKeepsAbsent(w, s.d, s.act, j);
    } else if s.Work? {
      WorkIs(w, s);
      WorkKeepsAbsent(w, s.ok, j);
    } else {
      OtherKeepsAbsent(w, s, j);
    }
  }

  lemma OtherKeepsAbsent(w: World, s: Step, j: JobId)
    requires Enabled(w, s) && !s.Region? && !s.Work? && j < w.next && j !in w.jobs
    ensures j !in Next(w, s).jobs && j < Next(w, s).next
  {
    hide Chunked, Opened;
  }

  lemma RegionKeepsAbsent(w: World, d: DocId, act: Act, j: JobId)
    requires Inv(w) && ActAllowed(w, d, act) && j < w.next && j !in w.jobs
    ensures j !in RegionNext(w, d, act).jobs && j < RegionNext(w, d, act).next
  {
    var r := w.regions[d];
    if r.Deleting? {
      hide Inv;
    } else {
      RegionFrame(w, d, act);
      if RegionJob(r).Some? { WorkerRegionThreads(w, d, act, RegionJob(r).value); }
      hide RegionNext, Inv;
    }
  }

  lemma WorkerRegionNext(w: World, d: DocId, act: Act)
    requires ActAllowed(w, d, act)
    ensures RegionNext(w, d, act).next == w.next
  {
    if !w.regions[d].Deleting? {
      RegionFrame(w, d, act);
      hide RegionNext;
    }
  }

  lemma WorkKeepsAbsent(w: World, ok: bool, j: JobId)
    requires Inv(w) && Outside(w.worker) && j < w.next && j !in w.jobs
    ensures var v := if ok then WorkNext(w) else WorkThrow(w); j !in v.jobs && j < v.next
  {
    hide Inv;
  }

  /** Over any run: a raised flag stays raised and a terminal state is final, as long as the row exists; a row
      that has gone does not come back. */
  lemma {:induction false} RunMonotone(w: World, run: seq<Step>, j: JobId)
    requires Inv(w) && Valid(w, run) && j < w.next
    ensures j in After(w, run).jobs ==> j in w.jobs
    ensures j in After(w, run).jobs && w.jobs[j].cancelRequested ==> After(w, run).jobs[j].cancelRequested
    ensures j in After(w, run).jobs && Terminal(w.jobs[j].state) ==> After(w, run).jobs[j].state == w.jobs[j].state
    decreases |run|
  {
    if run != [] {
      var v := Next(w, run[0]);
      StepInv(w, run[0]);
      StepNext(w, run[0]);
      if j !in w.jobs { StepKeepsAbsent(w, run[0], j); }
      RunMonotone(v, run[1..], j);
    }
  }

  lemma StepNext(w: World, s: Step)
    requires Enabled(w, s)
    ensures w.next <= Next(w, s).next
  {
    if s.Region? { WorkerRegionNext(w, s.d, s.act); }
  }

  // ---------- every processed job is settled ----------

  /** A job whose `_process` call the worker has finished with is terminal or its row is gone; and a RUNNING
      row is in the worker's hands, unless the worker is down or even containment failed. */
  lemma ProcessedJobsSettle(w: World, j: JobId)
    requires Reachable(w)
    ensures j in w.settled && j in w.jobs ==> Terminal(w.jobs[j].state)
    ensures j in w.jobs && w.jobs[j].state == Running ==>
      w.worker.Down? || JobOf(w.worker) == Some(j) || j in w.escaped
  {
    ReachableInv(w);
  }

  /** Restarting leaves nothing in flight and revives exactly the jobs nobody cancelled. */
  lemma RestartSettles(w: World, j: JobId)
    requires Reachable(w) && Enabled(w, Start) && j in w.jobs
    ensures var after := Next(w, Start).jobs[j];
      && (after.state == Queued || Terminal(after.state))
      && (w.jobs[j].state in {Running, CancelRequested} ==>
            (after.state == Queued <==> !w.jobs[j].cancelRequested))
  {
    ReachableInv(w);
    ReconcileSettles(w.jobs);
  }
}
