/** The durable job table of the local runtime (app/local_compute/jobs.py).

    A row is a value, the table is a finite map, and each SQL transaction is one function on the
    table.  The class at the end keeps the table in a field and is proved against those functions. */
module LocalJobs {
  import opened Wrappers

  type JobId = nat
  type DocId = nat
  type ArtId = nat

  datatype JobState = Queued | Running | Succeeded | Failed | CancelRequested | Cancelled

  datatype Operation = ProcessDocument | PrepareDocument | IndexDocument

  datatype Stage =
    | Accepted | Starting | Recovering
    | Extracting | Cleaning | Reconstructing | Parsing | Chunking | Persisting | Validating
    | PreparedNotIndexed
    | LoadingEmbeddingModel | Indexing | ValidatingIndex | IndexReady
    | FailedStage | CancelledStage | FailedInterrupted

  datatype Code =
    | JobCancelled | InvalidRequest | DocumentNotFound | CapabilityUnavailable
    | ModelArtifactUnavailable | PreparationFailed | UnsupportedTextlessPdf
    | PreparationInterrupted | InternalComputeError

  datatype Job = Job(
    state: JobState,
    operation: Operation,
    document: Option<DocId>,
    artifact: Option<ArtId>,
    stage: Stage,
    progress: int,
    error: Option<Code>,
    cancelRequested: bool,
    createdAt: int)

  type Table = map<JobId, Job>

  /** The states the source lists as still occupying the pipeline. */
  predicate Active(s: JobState) {
    s == Queued || s == Running || s == CancelRequested
  }

  predicate Terminal(s: JobState) {
    s == Succeeded || s == Failed || s == Cancelled
  }

  function Clamp(progress: int): (p: int)
    ensures 0 <= p <= 100
  {
    if progress < 0 then 0 else if progress > 100 then 100 else progress
  }

  // ---------- enqueue ----------

  predicate Pending(rows: Table, d: DocId, j: JobId) {
    j in rows && rows[j].operation == ProcessDocument && rows[j].document == Some(d) && Active(rows[j].state)
  }

  ghost predicate HasPending(rows: Table, d: DocId) {
    exists j :: Pending(rows, d, j)
  }

  function NewPipelineJob(d: DocId, now: int): Job {
    Job(Queued, ProcessDocument, Some(d), None, Accepted, 0, None, false, now)
  }

  ghost function Enqueued(rows: Table, d: DocId, uuid: JobId, now: int): Table {
    if HasPending(rows, d) then rows else rows[uuid := NewPipelineJob(d, now)]
  }

  // ---------- unguarded updates of one row ----------

  function Updated(rows: Table, j: JobId, state: JobState, stage: Stage, progress: int, error: Option<Code>): Table {
    if j in rows then
      rows[j := rows[j].(state := state, stage := stage, progress := Clamp(progress), error := error)]
    else
      rows
  }

  function Attached(rows: Table, j: JobId, a: ArtId): Table {
    if j in rows then rows[j := rows[j].(artifact := Some(a))] else rows
  }

  // ---------- claim ----------

  predicate Claimable(rows: Table, j: JobId) {
    j in rows && rows[j].state == Queued && rows[j].operation == ProcessDocument
  }

  /** `ORDER BY created_at ASC LIMIT 1`: one of the oldest claimable rows. */
  predicate Oldest(rows: Table, j: JobId) {
    Claimable(rows, j) && forall i | i in rows :: Claimable(rows, i) ==> rows[j].createdAt <= rows[i].createdAt
  }

  function ClaimRow(row: Job): Job {
    row.(state := Running, stage := if row.stage == Recovering then Recovering else Starting)
  }

  function Claimed(rows: Table, j: JobId): Table
    requires j in rows
  {
    rows[j := ClaimRow(rows[j])]
  }

  // ---------- cancellation ----------

  predicate Cancellable(row: Job) {
    row.state == Queued || row.state == Running
  }

  function CancelRow(row: Job): Job {
    if Cancellable(row) then row.(state := CancelRequested, cancelRequested := true) else row
  }

  function CancelRequestedFor(rows: Table, j: JobId): Table {
    if j in rows then rows[j := CancelRow(rows[j])] else rows
  }

  predicate IsCancelRequested(rows: Table, j: JobId) {
    j in rows && rows[j].cancelRequested
  }

  function CancelledFor(rows: Table, d: DocId): Table {
    map j | j in rows :: if rows[j].document == Some(d) then CancelRow(rows[j]) else rows[j]
  }

  function DeletedFor(rows: Table, d: DocId): Table {
    map j | j in rows && rows[j].document != Some(d) :: rows[j]
  }

  // ---------- recovery ----------

  predicate Interrupted(row: Job) {
    row.state == Running || row.state == CancelRequested
  }

  function ReconcileCancelled(row: Job): Job {
    if row.operation == ProcessDocument && Interrupted(row) && row.cancelRequested then
      row.(state := Cancelled, stage := CancelledStage, progress := 100)
    else row
  }

  function ReconcileRecoverable(row: Job): Job {
    if row.operation == ProcessDocument && Interrupted(row) && !row.cancelRequested then
      row.(state := Queued, stage := Recovering, error := None, cancelRequested := false)
    else row
  }

  function ReconcileLegacy(row: Job): Job {
    if row.operation != ProcessDocument && Interrupted(row) then
      row.(state := Failed, stage := FailedInterrupted, error := Some(PreparationInterrupted))
    else row
  }

  function ReconcileRow(row: Job): Job {
    ReconcileLegacy(ReconcileRecoverable(ReconcileCancelled(row)))
  }

  /** Three UPDATE statements over the whole table, in one transaction. */
  function Reconciled(rows: Table): Table {
    map j | j in rows :: ReconcileRow(rows[j])
  }

  // ---------- the row invariant ----------

  /** What every commit keeps true of one row. */
  predicate RowOk(row: Job) {
    && (row.state == Queued ==> !row.cancelRequested)
    && (row.state == CancelRequested ==> row.cancelRequested)
    && 0 <= row.progress <= 100
    && (row.operation == ProcessDocument ==> row.document.Some? && (row.progress == 100 <==> Terminal(row.state)))
  }

  ghost predicate OneActivePerDocument(rows: Table) {
    forall i, j, d :: Pending(rows, d, i) && Pending(rows, d, j) ==> i == j
  }

  ghost predicate TableOk(rows: Table) {
    (forall j | j in rows :: RowOk(rows[j])) && OneActivePerDocument(rows)
  }

  /** How one commit may change the rows that survive it: a raised flag stays raised, a terminal state stays, and what
      the job is for does not change. */
  ghost predicate Monotone(before: Table, after: Table) {
    forall j | j in before && j in after ::
      && (before[j].cancelRequested ==> after[j].cancelRequested)
      && (Terminal(before[j].state) ==> after[j].state == before[j].state)
      && before[j].operation == after[j].operation
      && before[j].document == after[j].document
  }

  // ---------- lemmas about single commits ----------

  lemma EnqueueKeeps(rows: Table, d: DocId, uuid: JobId, now: int)
    requires TableOk(rows) && uuid !in rows
    ensures TableOk(Enqueued(rows, d, uuid, now)) && HasPending(Enqueued(rows, d, uuid, now), d)
    ensures Monotone(rows, Enqueued(rows, d, uuid, now))
  {
    var after := Enqueued(rows, d, uuid, now);
    if !HasPending(rows, d) {
      assert Pending(after, d, uuid);
      forall i, j, e | Pending(after, e, i) && Pending(after, e, j)
        ensures i == j
      {
        if i != uuid { assert Pending(rows, e, i); }
        if j != uuid { assert Pending(rows, e, j); }
      }
    }
  }

  /** Replacing one row by another of the same document and operation, active only if it was. */
  lemma RowUpdateKeeps(rows: Table, j: JobId, row: Job)
    requires TableOk(rows) && j in rows && RowOk(row)
    requires row.operation == rows[j].operation && row.document == rows[j].document
    requires Active(row.state) ==> Active(rows[j].state)
    ensures TableOk(rows[j := row])
  {
    var after := rows[j := row];
    forall i, k, d | Pending(after, d, i) && Pending(after, d, k)
      ensures i == k
    {
      assert Pending(rows, d, i) && Pending(rows, d, k);
    }
  }

  lemma CancelledForKeeps(rows: Table, d: DocId)
    requires TableOk(rows)
    ensures TableOk(CancelledFor(rows, d)) && Monotone(rows, CancelledFor(rows, d))
  {
    var after := CancelledFor(rows, d);
    forall i, k, e | Pending(after, e, i) && Pending(after, e, k)
      ensures i == k
    {
      assert Pending(rows, e, i) && Pending(rows, e, k);
    }
  }

  lemma DeletedForKeeps(rows: Table, d: DocId)
    requires TableOk(rows)
    ensures TableOk(DeletedFor(rows, d)) && Monotone(rows, DeletedFor(rows, d))
  {
    var after := DeletedFor(rows, d);
    forall i, k, e | Pending(after, e, i) && Pending(after, e, k)
      ensures i == k
    {
      assert Pending(rows, e, i) && Pending(rows, e, k);
    }
  }

  /** One row after recovery. */
  ghost predicate Settled(row: Job, after: Job) {
    && (after.state == Queued || Terminal(after.state))
    && (row.operation == ProcessDocument && row.state in {Running, CancelRequested} ==>
          after.state == if row.cancelRequested then Cancelled else Queued)
    && (row.operation != ProcessDocument && row.state in {Running, CancelRequested} ==> after.state == Failed)
  }

  lemma ReconcileRowSettles(row: Job)
    requires RowOk(row)
    ensures var after := ReconcileRow(row);
      && RowOk(after) && Settled(row, after)
      && after.operation == row.operation && after.document == row.document
      && after.cancelRequested == row.cancelRequested
      && (Terminal(row.state) ==> after.state == row.state) && (Active(after.state) ==> Active(row.state))
  {
  }

  /** After recovery nothing is left in flight, a cancelled job is never revived, and the rest is kept. */
  lemma ReconcileSettles(rows: Table)
    requires TableOk(rows)
    ensures TableOk(Reconciled(rows)) && Monotone(rows, Reconciled(rows))
    ensures forall j | j in rows :: Settled(rows[j], Reconciled(rows)[j])
  {
    hide RowOk, Settled, ReconcileRow;
    var after := Reconciled(rows);
    forall j | j in rows ensures after[j] == ReconcileRow(rows[j]) && RowOk(after[j]) && Settled(rows[j], after[j]) {
      ReconcileRowSettles(rows[j]);
    }
    forall i, k, e | Pending(after, e, i) && Pending(after, e, k)
      ensures i == k
    {
      ReconcileRowSettles(rows[i]);
      ReconcileRowSettles(rows[k]);
      assert Pending(rows, e, i) && Pending(rows, e, k);
    }
    ReconcileMonotone(rows);
  }

  lemma ReconcileMonotone(rows: Table)
    requires TableOk(rows)
    ensures Monotone(rows, Reconciled(rows))
  {
    hide RowOk, Settled, ReconcileRow;
    forall j | j in rows
      ensures ReconcileRow(rows[j]).operation == rows[j].operation && ReconcileRow(rows[j]).document == rows[j].document
      ensures ReconcileRow(rows[j]).cancelRequested == rows[j].cancelRequested
      ensures Terminal(rows[j].state) ==> ReconcileRow(rows[j]).state == rows[j].state
    {
      ReconcileRowSettles(rows[j]);
    }
  }

  /** A nonempty set of rows has one that an ORDER BY ... LIMIT 1 may return. */
  lemma {:induction false} FirstExists(among: set<JobId>, key: JobId -> int)
    requires among != {}
    ensures exists j :: j in among && forall i | i in among :: key(j) <= key(i)
    decreases among
  {
    var k :| k in among;
    var rest := among - {k};
    if rest == {} {
      assert among == {k};
    } else {
      FirstExists(rest, key);
      var j :| j in rest && forall i | i in rest :: key(j) <= key(i);
      var best := if key(k) <= key(j) then k else j;
      assert forall i | i in among :: i == k || i in rest;
      assert best in among && forall i | i in among :: key(best) <= key(i);
    }
  }

  /** `LocalJobStore`: the table as a field, one method a transaction. */
  class LocalJobStore {
    var rows: Table

    constructor ()
      ensures rows == map[]
    {
      rows := map[];
    }

    /** Idempotent while a pipeline for the document is active: the newest active row is reused. */
    method EnqueuePipeline(d: DocId, uuid: JobId, now: int) returns (id: JobId)
      requires uuid !in rows
      modifies this
      ensures rows == Enqueued(old(rows), d, uuid, now)
      ensures Pending(rows, d, id)
      ensures forall i :: Pending(old(rows), d, i) ==> Pending(old(rows), d, id) && rows[i].createdAt <= rows[id].createdAt
    {
      var existing := set j | j in rows && Pending(rows, d, j);
      assert forall j :: Pending(rows, d, j) ==> j in existing;
      if existing != {} {
        var table := rows;
        FirstExists(existing, j => if j in table then -table[j].createdAt else 0);
        id :| id in existing && forall i | i in existing :: rows[i].createdAt <= rows[id].createdAt;
      } else {
        rows := rows[uuid := NewPipelineJob(d, now)];
        id := uuid;
      }
    }

    method Update(j: JobId, state: JobState, stage: Stage, progress: int, error: Option<Code>)
      modifies this
      ensures rows == Updated(old(rows), j, state, stage, progress, error)
    {
      if j in rows {
        rows := rows[j := rows[j].(state := state, stage := stage, progress := Clamp(progress), error := error)];
      }
    }

    method AttachArtifact(j: JobId, a: ArtId)
      modifies this
      ensures rows == Attached(old(rows), j, a)
    {
      if j in rows {
        rows := rows[j := rows[j].(artifact := Some(a))];
      }
    }

    method ClaimNextPipeline() returns (claimed: Option<JobId>)
      modifies this
      ensures claimed == None ==> rows == old(rows) && forall j :: !Claimable(rows, j)
      ensures claimed.Some? ==>
        Oldest(old(rows), claimed.value) && rows == Claimed(old(rows), claimed.value)
    {
      var queue := set j | j in rows && Claimable(rows, j);
      if queue == {} {
        assert forall j :: Claimable(rows, j) ==> j in queue;
        return None;
      }
      var table := rows;
      FirstExists(queue, j => if j in table then table[j].createdAt else 0);
      var j :| j in queue && forall i | i in queue :: rows[j].createdAt <= rows[i].createdAt;
      assert Oldest(rows, j) by {
        assert forall i | i in rows && Claimable(rows, i) :: i in queue;
      }
      rows := rows[j := ClaimRow(rows[j])];
      claimed := Some(j);
    }

    method RequestCancel(j: JobId) returns (accepted: bool)
      modifies this
      ensures rows == CancelRequestedFor(old(rows), j)
      ensures accepted <==> j in old(rows) && Cancellable(old(rows)[j])
    {
      accepted := j in rows && Cancellable(rows[j]);
      if accepted {
        rows := rows[j := rows[j].(state := CancelRequested, cancelRequested := true)];
      }
    }

    method CancelForDocument(d: DocId) returns (count: nat)
      modifies this
      ensures rows == CancelledFor(old(rows), d)
      ensures count == |set j | j in old(rows) && old(rows)[j].document == Some(d) && Cancellable(old(rows)[j])|
    {
      var hit := set j | j in rows && rows[j].document == Some(d) && Cancellable(rows[j]);
      count := |hit|;
      rows := map j | j in rows ::
        if j in hit then rows[j].(state := CancelRequested, cancelRequested := true) else rows[j];
    }

    method ReconcileInterrupted() returns (affected: nat)
      modifies this
      ensures rows == Reconciled(old(rows))
      ensures affected == |set j | j in old(rows) && Interrupted(old(rows)[j])|
    {
      affected := |set j | j in rows && Interrupted(rows[j])|;
      rows := map j | j in rows :: ReconcileCancelled(rows[j]);
      rows := map j | j in rows :: ReconcileRecoverable(rows[j]);
      rows := map j | j in rows :: ReconcileLegacy(rows[j]);
    }
  }
}
