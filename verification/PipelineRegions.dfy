/** Progress of whoever holds a document lock: every step of the holder lowers a well-founded rank of its region that
    nobody else's steps move, so every region is left after finitely many of its own steps. */
module PipelineRegions {
  import opened Wrappers
  import opened LocalJobs
  import opened DocumentPipeline
  import opened PipelineSafety
  import opened PipelineFrames
  import opened PipelineJobs
  import opened PipelineTheorems
  import A = ArtifactIndex

  datatype Rank = Rank(phase: nat, inner: nat)

  predicate Below(a: Rank, b: Rank) {
    a.phase < b.phase || (a.phase == b.phase && a.inner < b.inner)
  }

  function Left(total: nat, processed: nat): nat {
    if processed < total then total - processed else 0
  }

  /** Batches left and the place within one. */
  function LoopRank(index: IndexPhase, total: nat): nat {
    match index
    case ReportPage(n, _) => 5 * Left(total, n) + 5
    case Loop(n, _) => 5 * Left(total, n) + 4
    case Embed(n, _) => 5 * Left(total, n) + 3
    case CheckPage(n, _, _) => 5 * Left(total, n) + 2
    case Append(n, _, _) => 5 * Left(total, n) + 1
    case _ => 0
  }

  function IndexRank(index: IndexPhase, total: nat): Rank {
    match index
    case FailJob(_) => Rank(5, 0)
    case RestoreGate(_) => Rank(6, 0)
    case RestoreFile(_) => Rank(7, 0)
    case Succeed => Rank(8, 0)
    case OpenGate => Rank(9, 0)
    case MarkReady => Rank(10, 0)
    case Validate(_) => Rank(11, 0)
    case ReportValidating(_) => Rank(12, 0)
    case LastCheck(_) => Rank(13, 0)
    case ReportOpen => Rank(15, 0)
    case Open => Rank(16, 0)
    case CheckModel => Rank(17, 0)
    case ReportLoading => Rank(18, 0)
    case CheckStart => Rank(19, 0)
    case CloseGate => Rank(20, 0)
    case Attach => Rank(21, 0)
    case _ => Rank(14, LoopRank(index, total))
  }

  function PrepRank(prep: PrepPhase): Rank {
    match prep
    case PrepFailed(_) => Rank(26, 0)
    case PrepFailing(_) => Rank(27, 0)
    case Prepared => Rank(28, 0)
    case Register => Rank(29, 0)
    case Promote => Rank(30, 0)
    case Working(todo) => Rank(31, |todo|)
    case Bind => Rank(32, 0)
  }

  /** The files of a document that are still there. */
  function Tree(s: Store, d: DocId): set<ArtId> {
    set a | a in s.files && s.files[a].directory == d
  }

  function RegionRank(w: World, d: DocId, r: Region): Rank {
    match r
    case Preparing(_, _, _, _, _, prep) => PrepRank(prep)
    case Rebuilding(_, a, _, index) => IndexRank(index, Total(w, a))
    case Deleting(CancelJobs) => Rank(3, 0)
    case Deleting(RemoveTrees) => Rank(2, |Tree(w.store, d)|)
    case Deleting(RemoveRows) => Rank(1, 0)
  }

  /** The holder of the lock of `d` has left, or is closer to leaving. */
  ghost predicate Lowers(w: World, v: World, d: DocId) {
    d in w.regions && (d in v.regions ==> Below(RegionRank(v, d, v.regions[d]), RegionRank(w, d, w.regions[d])))
  }

  // ---------- the rank goes down ----------

  ghost predicate RegionAdvances(w: World, v: World, d: DocId)
    requires d in w.regions && w.regions[d].Rebuilding?
  {
    && v.worker == w.worker && d in v.regions && v.regions[d].Rebuilding?
    && Below(RegionRank(v, d, v.regions[d]), RegionRank(w, d, w.regions[d]))
  }

  /** A committed page was not empty, so fewer chunks are left. */
  lemma PageLeft(file: A.ArtifactFile, n: nat, last: int, page: seq<int>)
    requires A.PrefixIndexed(file, n, last, MODEL) && page == A.Page(file.chunks, last, BATCH_SIZE)
    ensures n + |page| <= |file.chunks|
  {
    hide A.Page, A.Order, A.PrefixIndexed;
    A.PrefixBounds(file, n, last, MODEL);
    A.PageIsNextSlice(file.chunks, n, last, BATCH_SIZE);
    A.OrderCovers(file.chunks);
  }

  /** The same region with its artifact's chunks unchanged and a lower phase. */
  lemma LowerPhase(w: World, v: World, d: DocId, index: IndexPhase)
    requires d in w.regions && w.regions[d].Rebuilding? && v.worker == w.worker
    requires d in v.regions && v.regions[d] == w.regions[d].(index := index)
    requires Total(v, w.regions[d].artifact) == Total(w, w.regions[d].artifact)
    requires Below(IndexRank(index, Total(w, w.regions[d].artifact)),
                   IndexRank(w.regions[d].index, Total(w, w.regions[d].artifact)))
    ensures RegionAdvances(w, v, d)
  {
  }

  lemma AppendBelow(n: nat, size: nat, total: nat, last: int, last': int, vectors: seq<A.Vector>)
    requires 0 < size && n + size <= total
    ensures Below(IndexRank(ReportPage(n + size, last'), total), IndexRank(Append(n, last, vectors), total))
  {
  }

  lemma AppendFitsRank(file: A.ArtifactFile, n: nat, last: int, vectors: seq<A.Vector>, page: seq<int>)
    requires A.PrefixIndexed(file, n, last, MODEL)
    requires page == A.Page(file.chunks, last, BATCH_SIZE) && page != []
    ensures Below(IndexRank(ReportPage(n + |page|, page[|page| - 1]), |file.chunks|),
                  IndexRank(Append(n, last, vectors), |file.chunks|))
  {
    hide A.Page, A.PrefixIndexed, IndexRank;
    PageLeft(file, n, last, page);
    AppendBelow(n, |page|, |file.chunks|, last, page[|page| - 1], vectors);
  }

  lemma AppendFitsStep(
    w: World, d: DocId, r: Region, n: nat, last: int, vectors: seq<A.Vector>, m: nat, top: int, after: A.ArtifactFile)
    requires d in w.regions && r == w.regions[d] && r.Rebuilding? && r.index == Append(n, last, vectors)
    requires r.artifact in w.store.files && after.chunks == w.store.files[r.artifact].chunks
    requires Below(IndexRank(ReportPage(m, top), |after.chunks|), IndexRank(Append(n, last, vectors), |after.chunks|))
    ensures RegionAdvances(w, Enter(PutFile(w, r.artifact, after), d, r.(index := ReportPage(m, top))), d)
  {
    hide IndexRank, Below;
    LowerPhase(w, Enter(PutFile(w, r.artifact, after), d, r.(index := ReportPage(m, top))), d, ReportPage(m, top));
  }

  lemma AppendGivesUp(w: World, d: DocId, r: Region)
    requires d in w.regions && r == w.regions[d] && r.Rebuilding? && r.index.Append?
    ensures RegionAdvances(w, Enter(w, d, r.(index := RestoreFile(PreparationFailed))), d)
  {
    GivingUpRank(r.index, Total(w, r.artifact));
    hide IndexRank, Below;
    LowerPhase(w, Enter(w, d, r.(index := RestoreFile(PreparationFailed))), d, RestoreFile(PreparationFailed));
  }

  lemma AppendRank(w: World, d: DocId, r: Region, n: nat, last: int, vectors: seq<A.Vector>)
    requires d in w.regions && r == w.regions[d] && r.Rebuilding? && r.index == Append(n, last, vectors)
    requires r.artifact in w.store.files && A.PrefixIndexed(w.store.files[r.artifact], n, last, MODEL)
    ensures RegionAdvances(w, AppendPage(w, d, r, n, last, vectors), d)
  {
    var file := w.store.files[r.artifact];
    var page := A.Page(file.chunks, last, BATCH_SIZE);
    hide A.Page, A.Rows, A.PrefixIndexed, RegionAdvances, A.WithEmbeddings, A.LexicalOf, Below, IndexRank, PageFits,
      Enter, PutFile;
    if PageFits(page, vectors) {
      PageFitsSize(page, vectors);
      AppendFitsRank(file, n, last, vectors, page);
      AppendFitsStep(w, d, r, n, last, vectors, n + |page|, page[|page| - 1],
                     A.Appended(file, A.Rows(file.chunks, page), vectors, MODEL));
    } else {
      AppendGivesUp(w, d, r);
    }
  }

  lemma GivingUpRank(index: IndexPhase, total: nat)
    requires index.Append?
    ensures Below(IndexRank(RestoreFile(PreparationFailed), total), IndexRank(index, total))
  {
  }

  lemma AppendIsFileStep(w: World, d: DocId, r: Region)
    requires r.Rebuilding? && r.index.Append? && r.artifact in w.store.files && |w.store.files[r.artifact].chunks| > 0
    ensures IndexFileStep(w, d, r) == AppendPage(w, d, r, r.index.processed, r.index.last, r.index.vectors)
  {
    hide AppendPage;
  }

  lemma FileAdvances(w: World, d: DocId)
    requires StoresInv(w) && d in w.regions && w.regions[d].Rebuilding? && IsFileStep(w.regions[d].index)
    ensures RegionAdvances(w, IndexFileStep(w, d, w.regions[d]), d)
  {
    var r := w.regions[d];
    hide StoresInv, RegionAdvances, A.PrefixIndexed, FileOk, AppendPage, IndexFileStep;
    if r.index.Append? && r.artifact in w.store.files && |w.store.files[r.artifact].chunks| > 0 {
      AppendFacts(w, d);
      AppendIsFileStep(w, d, r);
      AppendRank(w, d, r, r.index.processed, r.index.last, r.index.vectors);
    } else {
      OtherFileRank(w, d, r);
      hide Below, IndexRank, Total;
      LowerPhase(w, IndexFileStep(w, d, r), d, IndexFileStep(w, d, r).regions[d].index);
    }
  }

  /** A step on the artifact file leaves its chunks alone and lowers the phase. */
  ghost predicate PhaseLower(w: World, v: World, d: DocId, r: Region)
    requires r.Rebuilding?
  {
    && v.worker == w.worker && d in v.regions && v.regions[d].Rebuilding?
    && v.regions[d] == r.(index := v.regions[d].index)
    && Total(v, r.artifact) == Total(w, r.artifact)
    && Below(IndexRank(v.regions[d].index, Total(w, r.artifact)), IndexRank(r.index, Total(w, r.artifact)))
  }

  lemma RestoreRank(w: World, d: DocId, r: Region)
    requires d in w.regions && r == w.regions[d] && r.Rebuilding? && r.index.RestoreFile?
    ensures PhaseLower(w, IndexFileStep(w, d, r), d, r)
  {
    hide AppendPage, A.Validates, A.Cleared;
  }

  lemma MissingRank(w: World, d: DocId, r: Region)
    requires d in w.regions && r == w.regions[d] && r.Rebuilding? && IsFileStep(r.index) && !r.index.RestoreFile?
    requires r.artifact !in w.store.files || |w.store.files[r.artifact].chunks| == 0
    ensures PhaseLower(w, IndexFileStep(w, d, r), d, r)
  {
    hide AppendPage, A.Validates, A.Cleared, PutFile;
  }

  lemma PresentRank(w: World, d: DocId, r: Region)
    requires d in w.regions && r == w.regions[d] && r.Rebuilding?
    requires r.index.Open? || r.index.Validate? || r.index.MarkReady?
    requires r.artifact in w.store.files && |w.store.files[r.artifact].chunks| > 0
    ensures PhaseLower(w, IndexFileStep(w, d, r), d, r)
  {
    hide AppendPage, A.Validates;
  }

  lemma OtherFileRank(w: World, d: DocId, r: Region)
    requires d in w.regions && r == w.regions[d] && r.Rebuilding? && IsFileStep(r.index)
    requires r.index.Append? ==> r.artifact !in w.store.files || |w.store.files[r.artifact].chunks| == 0
    ensures PhaseLower(w, IndexFileStep(w, d, r), d, r)
  {
    hide IndexFileStep, PhaseLower;
    if r.index.RestoreFile? { RestoreRank(w, d, r); }
    else if r.artifact !in w.store.files || |w.store.files[r.artifact].chunks| == 0 { MissingRank(w, d, r); }
    else { PresentRank(w, d, r); }
  }

  lemma CheckReportAdvances(w: World, d: DocId)
    requires d in w.regions && w.regions[d].Rebuilding? && (IsCheck(w.regions[d].index) || IsReport(w.regions[d].index))
    ensures RegionAdvances(w, IndexProceed(w, d, w.regions[d]), d)
  {
    var r := w.regions[d];
    var total := Total(w, r.artifact);
    if IsCheck(r.index) {
      CheckRank(r.index, total);
      hide AfterCheck, IndexRank, IndexFileStep, IndexCatalogStep;
    } else {
      ReportRank(r.index, total);
      hide AfterReport, IndexRank, ReportStage, ReportLocal, IndexFileStep, IndexCatalogStep;
    }
  }

  lemma CheckRank(p: IndexPhase, total: nat)
    requires IsCheck(p)
    ensures Below(IndexRank(AfterCheck(p), total), IndexRank(p, total))
    ensures Below(IndexRank(RestoreFile(JobCancelled), total), IndexRank(p, total))
  {
  }

  lemma ReportRank(p: IndexPhase, total: nat)
    requires IsReport(p)
    ensures Below(IndexRank(AfterReport(p, total), total), IndexRank(p, total))
  {
  }

  lemma WorkingLowers(w: World, d: DocId)
    requires d in w.regions && w.regions[d].Preparing? && w.regions[d].prep.Working?
    ensures Lowers(w, PrepProceed(w, d, w.regions[d]), d)
  {
    var r := w.regions[d];
    if r.prep.todo != [] && r.prep.todo[0].SetGate? { SetGateShape(w, d, r.prep.todo[0].gate, None); }
    hide PrepProgress, SetGateOf, Updated, CancelSeen;
  }

  lemma PrepEndLowers(w: World, d: DocId)
    requires d in w.regions && w.regions[d].Preparing? && w.regions[d].prep.PrepFailed?
    ensures Lowers(w, PrepProceed(w, d, w.regions[d]), d)
  {
    var r := w.regions[d];
    SetGateShape(w, d, Gate.Failed, Some(r.prep.code));
    RaiseShape(if r.hadActive then w else SetGateOf(w, d, Gate.Failed, Some(r.prep.code)), d, r.job, r.prep.code);
    hide SetGateOf, Raise;
  }

  lemma PrepProceedLowers(w: World, d: DocId)
    requires d in w.regions && w.regions[d].Preparing? && !w.regions[d].prep.Working? && !w.regions[d].prep.PrepFailed?
    ensures Lowers(w, PrepProceed(w, d, w.regions[d]), d)
  {
    hide PrepScript, Updated, Attached, FailState, FailStage, NewFile;
  }

  lemma PrepLowers(w: World, d: DocId, act: Act)
    requires ActAllowed(w, d, act) && w.regions[d].Preparing?
    ensures Lowers(w, RegionNext(w, d, act), d)
  {
    hide PrepProceed, Raise;
    if act.Proceed? {
      hide Lowers;
      if w.regions[d].prep.Working? { WorkingLowers(w, d); }
      else if w.regions[d].prep.PrepFailed? { PrepEndLowers(w, d); }
      else { PrepProceedLowers(w, d); }
    } else {
      RaiseShape(w, d, w.regions[d].job, act.code);
    }
  }

  lemma CatalogLowers(w: World, d: DocId)
    requires d in w.regions && w.regions[d].Rebuilding? && !w.regions[d].index.Embed?
    requires !IsCheck(w.regions[d].index) && !IsReport(w.regions[d].index) && !IsFileStep(w.regions[d].index)
    ensures Lowers(w, IndexCatalogStep(w, d, w.regions[d]), d)
  {
  }

  lemma ThrowRank(p: IndexPhase, total: nat, code: Code)
    ensures p.RestoreFile? ==> Below(IndexRank(RestoreGate(p.code), total), IndexRank(p, total))
    ensures !(p.RestoreFile? || p.Attach? || p.CloseGate? || p.RestoreGate? || p.FailJob?) ==>
      Below(IndexRank(RestoreFile(code), total), IndexRank(p, total))
  {
  }

  lemma EmbedRank(n: nat, last: int, vectors: seq<A.Vector>, total: nat)
    ensures Below(IndexRank(CheckPage(n, last, vectors), total), IndexRank(Embed(n, last), total))
  {
  }

  lemma IndexOtherLowers(w: World, d: DocId, act: Act)
    requires ActAllowed(w, d, act) && w.regions[d].Rebuilding? && !act.Proceed?
    ensures Lowers(w, RegionNext(w, d, act), d)
  {
    var r := w.regions[d];
    var total := Total(w, r.artifact);
    hide IndexProceed, PrepProceed, DeleteProceed, PrepThrow, Tree, Raise, IndexRank, Below;
    if act.Throw? {
      RaiseShape(w, d, r.job, act.code);
      ThrowRank(r.index, total, act.code);
    } else {
      EmbedRank(r.index.processed, r.index.last, act.vectors, total);
    }
  }

  lemma DeleteLowers(w: World, d: DocId, act: Act)
    requires ActAllowed(w, d, act) && w.regions[d].Deleting?
    ensures Lowers(w, RegionNext(w, d, act), d)
  {
    if act.Remove? {
      var tree := Tree(w.store, d);
      assert act.gone <= tree;
      assert Tree(RegionNext(w, d, act).store, d) == tree - act.gone;
      Fewer(tree, act.gone);
    }
  }

  lemma Fewer(all: set<ArtId>, gone: set<ArtId>)
    requires gone <= all && gone != {}
    ensures |all - gone| < |all|
  {
    assert all == (all - gone) + gone;
  }

  lemma ProceedLowers(w: World, d: DocId)
    requires StoresInv(w) && d in w.regions && w.regions[d].Rebuilding? && !w.regions[d].index.Embed?
    ensures Lowers(w, IndexProceed(w, d, w.regions[d]), d)
  {
    var r := w.regions[d];
    if IsCheck(r.index) || IsReport(r.index) {
      CheckReportAdvances(w, d);
      hide IndexProceed, RegionRank, StoresInv;
    } else if IsFileStep(r.index) {
      FileAdvances(w, d);
      hide IndexFileStep, RegionRank, StoresInv;
    } else {
      CatalogLowers(w, d);
      hide StoresInv, Lowers, IndexCatalogStep;
    }
  }

  /** Every step of whoever holds a document lock brings it closer to letting go. */
  lemma HolderAdvances(w: World, d: DocId, act: Act)
    requires StoresInv(w) && ActAllowed(w, d, act)
    ensures Lowers(w, RegionNext(w, d, act), d)
  {
    hide StoresInv, Lowers;
    if w.regions[d].Preparing? { PrepLowers(w, d, act); }
    else if w.regions[d].Deleting? { DeleteLowers(w, d, act); }
    else if act.Proceed? { ProceedLowers(w, d); }
    else { IndexOtherLowers(w, d, act); }
  }

  // ---------- nobody else moves it ----------

  /** Chunk tables in other documents' directories stay as they are, and a file stays in its directory. */
  ghost predicate TablesKept(s: Store, t: Store, d: DocId) {
    && (forall a | a in s.files && s.files[a].directory != d :: a in t.files && t.files[a].chunks == s.files[a].chunks)
    && (forall a | a in t.files && a !in s.files :: t.files[a].directory == d)
    && (forall a | a in t.files && a in s.files :: t.files[a].directory == s.files[a].directory)
  }

  lemma PrepArtifact(w: World, d: DocId)
    requires StoresInv(w) && d in w.regions && w.regions[d].Preparing? && w.regions[d].prep.Promote?
    ensures w.regions[d].artifact !in w.store.files
  {
    RegionAt(w, d);
  }

  lemma PrepKeepsTables(w: World, d: DocId, act: Act)
    requires StoresInv(w) && ActAllowed(w, d, act) && w.regions[d].Preparing?
    ensures TablesKept(w.store, RegionNext(w, d, act).store, d)
  {
    hide StoresInv, PrepScript, PrepProgress;
    if w.regions[d].prep.Promote? { PrepArtifact(w, d); }
    PrepTables(w, d, act);
  }

  lemma PrepTables(w: World, d: DocId, act: Act)
    requires ActAllowed(w, d, act) && w.regions[d].Preparing?
    requires w.regions[d].prep.Promote? ==> w.regions[d].artifact !in w.store.files
    ensures TablesKept(w.store, RegionNext(w, d, act).store, d)
  {
    if act.Proceed? && w.regions[d].prep.Promote? {
      PrepFrame(w, d, act);
      hide RegionNext, Framed;
    } else {
      PrepFilesSame(w, d, act);
      hide RegionNext;
    }
  }

  lemma PrepFilesSame(w: World, d: DocId, act: Act)
    requires ActAllowed(w, d, act) && w.regions[d].Preparing? && !(act.Proceed? && w.regions[d].prep.Promote?)
    ensures RegionNext(w, d, act).store.files == w.store.files
  {
    PrepFrame(w, d, act);
    hide RegionNext, Framed;
  }

  lemma OwnDirectory(w: World, d: DocId)
    requires StoresInv(w) && d in w.regions && w.regions[d].Rebuilding?
    ensures var a := w.regions[d].artifact; a in w.store.files ==> w.store.files[a].directory == d
  {
    RegionAt(w, d);
    if w.regions[d].artifact in w.store.files { assert ArtOk(w.store, w.regions[d].artifact); }
  }

  lemma IndexKeepsTables(w: World, d: DocId, act: Act)
    requires StoresInv(w) && ActAllowed(w, d, act) && w.regions[d].Rebuilding?
    ensures TablesKept(w.store, RegionNext(w, d, act).store, d)
  {
    var r := w.regions[d];
    OwnDirectory(w, d);
    hide StoresInv;
    if act.Proceed? && IsFileStep(r.index) {
      FileTables(w, d);
      hide IndexFileStep;
    } else {
      IndexFrame(w, d, act);
      CatalogFiles(w, d);
      hide RegionNext, Framed, CatalogStore;
    }
  }

  /** No catalog transaction touches a file. */
  lemma CatalogFiles(w: World, d: DocId)
    requires d in w.regions && w.regions[d].Rebuilding?
    ensures CatalogStore(w, d, w.regions[d]).files == w.store.files
  {
  }

  lemma FileTables(w: World, d: DocId)
    requires d in w.regions && w.regions[d].Rebuilding? && IsFileStep(w.regions[d].index)
    requires var a := w.regions[d].artifact; a in w.store.files ==> w.store.files[a].directory == d
    ensures TablesKept(w.store, IndexFileStep(w, d, w.regions[d]).store, d)
  {
    FileFrame(w, d, w.regions[d]);
    hide IndexFileStep, Framed;
  }

  lemma DeleteTables(w: World, d: DocId, act: Act)
    requires ActAllowed(w, d, act) && w.regions[d].Deleting?
    ensures TablesKept(w.store, RegionNext(w, d, act).store, d) && SameElsewhere(w, RegionNext(w, d, act), d)
  {
  }

  lemma RegionTables(w: World, d: DocId, act: Act)
    requires StoresInv(w) && ActAllowed(w, d, act)
    ensures TablesKept(w.store, RegionNext(w, d, act).store, d)
  {
    if w.regions[d].Preparing? { PrepKeepsTables(w, d, act); hide RegionNext; }
    else if w.regions[d].Rebuilding? { IndexKeepsTables(w, d, act); hide RegionNext; }
    else { hide StoresInv; DeleteTables(w, d, act); hide RegionNext; }
  }

  /** A step of one holder leaves all other regions alone. */
  lemma RegionElsewhere(w: World, d: DocId, act: Act)
    requires ActAllowed(w, d, act)
    ensures SameElsewhere(w, RegionNext(w, d, act), d)
  {
    if w.regions[d].Deleting? { DeleteTables(w, d, act); } else { RegionFrame(w, d, act); }
    hide RegionNext;
  }

  /** A region's rank depends only on its own document's files. */
  lemma SameRank(w: World, v: World, d: DocId, e: DocId)
    requires StoresInv(w) && TablesKept(w.store, v.store, d) && SameElsewhere(w, v, d) && e in w.regions && e != d
    ensures e in v.regions && v.regions[e] == w.regions[e]
    ensures RegionRank(v, e, v.regions[e]) == RegionRank(w, e, w.regions[e])
  {
    var r := w.regions[e];
    RegionAt(w, e);
    if r.Rebuilding? { assert ArtOk(w.store, r.artifact); }
    hide StoresInv;
    if r.Deleting? { assert Tree(v.store, e) == Tree(w.store, e); }
  }

  /** The steps that take no file away and enter or leave no region of `e`. */
  lemma StepElsewhere(w: World, s: Step, e: DocId)
    requires Enabled(w, s) && !s.Region? && !s.Crash? && e in w.regions
    ensures var v := Next(w, s);
      && v.store.files == w.store.files && e in v.regions && v.regions[e] == w.regions[e]
      && RegionRank(v, e, v.regions[e]) == RegionRank(w, e, w.regions[e])
  {
    StepApart(w, s);
    hide Next, Enabled, PrepRank, IndexRank;
  }

  /** No step of anybody else, short of a crash, changes how far the holder of a lock is from letting go. */
  lemma HolderUndisturbed(w: World, s: Step, e: DocId)
    requires StoresInv(w) && Enabled(w, s) && e in w.regions && !s.Crash? && !(s.Region? && s.d == e)
    ensures var v := Next(w, s);
      e in v.regions && v.regions[e] == w.regions[e] && RegionRank(v, e, v.regions[e]) == RegionRank(w, e, w.regions[e])
  {
    if s.Region? {
      RegionTables(w, s.d, s.act);
      RegionElsewhere(w, s.d, s.act);
      hide RegionNext, RegionRank;
      SameRank(w, Next(w, s), s.d, e);
    } else {
      StepElsewhere(w, s, e);
      hide RegionRank, Next, StoresInv;
    }
  }
}
