/** Document access, orphan collection and account deletion (app/auth/access.py, app/auth/worker.py,
    app/auth/service.py). One step is one committed transaction; a deletion job's attempt may fail or be killed after
    any of its commits and be retried. Ids are never used again. */
module AccountDeletion {

  import opened Wrappers

  datatype UserStatus = Active | Disabled | Deleting
  datatype JobState = Pending | Queued | Running | Completed | Failed
  datatype RefState = RefPending | RetainedReferenced | Deleted | RefFailed

  datatype Grant = Grant(document: nat, user: nat)
  datatype Job = Job(subject: nat, state: JobState, refs: map<nat, RefState>)

  /** The tables. A global grant remembers who gave it, until that user is deleted. */
  datatype Db = Db(
    users: map<nat, UserStatus>, documents: set<nat>, private: set<Grant>, globals: map<nat, Option<nat>>,
    jobs: map<nat, Job>, next: nat)

  // ---------- transactions ----------

  predicate Referenced(db: Db, doc: nat) {
    doc in db.globals || exists g | g in db.private :: g.document == doc
  }

  /** Deleting a document row takes its grants with it. */
  function WithoutDocument(db: Db, doc: nat): Db {
    db.(documents := db.documents - {doc},
        private := (set g | g in db.private && g.document != doc),
        globals := db.globals - {doc})
  }

  /** Deleting a user row takes its private grants with it and clears it from global ones. */
  function WithoutUser(db: Db, user: nat): Db {
    db.(users := db.users - {user},
        private := (set g | g in db.private && g.user != user),
        globals := map d | d in db.globals :: if db.globals[d] == Some(user) then None else db.globals[d])
  }

  function WithoutGrants(db: Db, user: nat): Db {
    db.(private := set g | g in db.private && g.user != user)
  }

  /** `collect_canonical_document`: true when the document is gone, false when something still refers to it. */
  function Collected(db: Db, doc: nat): (Db, bool) {
    if doc !in db.documents then (db, true)
    else if Referenced(db, doc) then (db, false)
    else (WithoutDocument(db, doc), true)
  }

  function PrivatelyGranted(db: Db, user: nat, doc: nat): (Db, bool) {
    if doc !in db.documents || user !in db.users then (db, false)
    else (db.(private := db.private + {Grant(doc, user)}), true)
  }

  function GloballyGranted(db: Db, admin: nat, doc: nat): (Db, bool) {
    if doc !in db.documents || admin !in db.users then (db, false)
    else if doc in db.globals then (db, true)
    else (db.(globals := db.globals[doc := Some(admin)]), true)
  }

  datatype Revocation = NotFound | Revoked(orphaned: bool)

  function PrivatelyRevoked(db: Db, user: nat, doc: nat): (Db, Revocation) {
    if doc !in db.documents || Grant(doc, user) !in db.private then (db, NotFound)
    else
      var db' := db.(private := db.private - {Grant(doc, user)});
      (db', Revoked(!Referenced(db', doc)))
  }

  function GloballyRevoked(db: Db, doc: nat): (Db, Revocation) {
    if doc !in db.documents || doc !in db.globals then (db, NotFound)
    else
      var db' := db.(globals := db.globals - {doc});
      (db', Revoked(!Referenced(db', doc)))
  }

  /** The caller's own grant goes first; only an administrator removes a global one. */
  function LibraryRevoked(db: Db, user: nat, admin: bool, doc: nat): (Db, Revocation) {
    if Grant(doc, user) in db.private then PrivatelyRevoked(db, user, doc)
    else if admin then GloballyRevoked(db, doc)
    else (db, NotFound)
  }

  function GrantedTo(db: Db, user: nat): set<nat> {
    set g | g in db.private && g.user == user :: g.document
  }

  predicate HasOpenJob(db: Db, user: nat) {
    exists j | j in db.jobs :: db.jobs[j].subject == user && db.jobs[j].state != Completed
  }

  /** A new job snapshots the documents granted to the user. */
  function Requested(db: Db, user: nat, passwordOk: bool): Db {
    if user !in db.users || db.users[user] != Active || !passwordOk || HasOpenJob(db, user) then db
    else
      var refs := map d | d in GrantedTo(db, user) :: RefPending;
      db.(users := db.users[user := Deleting], jobs := db.jobs[db.next := Job(user, Pending, refs)], next := db.next + 1)
  }

  function WithJob(db: Db, j: nat, job: Job): Db {
    db.(jobs := db.jobs[j := job])
  }

  function Marked(db: Db, j: nat, doc: nat, state: RefState): Db
    requires j in db.jobs
  {
    WithJob(db, j, db.jobs[j].(refs := db.jobs[j].refs[doc := state]))
  }

  // ---------- steps ----------

  /** Where an attempt stands between two commits. */
  datatype Pc = Cleanup | Visiting(left: set<nat>) | Marking(doc: nat, deleted: bool, left: set<nat>) | Failing

  /** The tables, and one attempt at most for a job, as the queue keeps it. */
  datatype World = World(db: Db, attempts: map<nat, Pc>)

  datatype Step =
    | Register | SetStatus(user: nat, disabled: bool) | Upload
    | GrantPrivate(user: nat, doc: nat) | GrantGlobal(user: nat, doc: nat)
    | RevokePrivate(user: nat, doc: nat) | RevokeFromLibrary(user: nat, admin: bool, doc: nat) | RevokeGlobal(doc: nat)
    | Gc(doc: nat)
    | Request(user: nat, passwordOk: bool) | Queue(job: nat)
    | Start(job: nat) | Clean(job: nat) | Skip(job: nat, doc: nat) | CollectRef(job: nat, doc: nat) | Mark(job: nat)
    | RefFails(job: nat, doc: nat) | JobFails(job: nat) | Kill(job: nat) | Finish(job: nat)

  predicate Done(state: RefState) {
    state == Deleted || state == RetainedReferenced
  }

  /** The transactions anyone may commit. */
  function SharedStep(db: Db, step: Step): Db {
    match step
    case Register => db.(users := db.users[db.next := Active], next := db.next + 1)
    case SetStatus(user, disabled) =>
      if user !in db.users || db.users[user] == Deleting then db
      else db.(users := db.users[user := if disabled then Disabled else Active])
    case Upload => db.(documents := db.documents + {db.next}, next := db.next + 1)
    case GrantPrivate(user, doc) => PrivatelyGranted(db, user, doc).0
    case GrantGlobal(user, doc) => GloballyGranted(db, user, doc).0
    case RevokePrivate(user, doc) => PrivatelyRevoked(db, user, doc).0
    case RevokeFromLibrary(user, admin, doc) => LibraryRevoked(db, user, admin, doc).0
    case RevokeGlobal(doc) => GloballyRevoked(db, doc).0
    case Gc(doc) => Collected(db, doc).0
    case Request(user, passwordOk) => Requested(db, user, passwordOk)
    case Queue(j) =>
      if j in db.jobs && (db.jobs[j].state == Pending || db.jobs[j].state == Failed)
      then WithJob(db, j, db.jobs[j].(state := Queued)) else db
    case _ => db
  }

  /** The commits of one attempt at job `j`, and the ways it ends. A step not possible here changes nothing. */
  function AttemptStep(w: World, j: nat, step: Step): World
    requires j in w.db.jobs && j in w.attempts
  {
    var db, pc, job := w.db, w.attempts[j], w.db.jobs[j];
    match step
    case Clean(_) =>
      if !pc.Cleanup? then w
      else World(WithoutGrants(db, job.subject), w.attempts[j := Visiting(job.refs.Keys)])
    case Skip(_, doc) =>
      if !pc.Visiting? || doc !in pc.left || doc !in job.refs || !Done(job.refs[doc]) then w
      else w.(attempts := w.attempts[j := Visiting(pc.left - {doc})])
    case CollectRef(_, doc) =>
      if !pc.Visiting? || doc !in pc.left || doc !in job.refs || Done(job.refs[doc]) then w
      else World(Collected(db, doc).0, w.attempts[j := Marking(doc, Collected(db, doc).1, pc.left - {doc})])
    case Mark(_) =>
      if !pc.Marking? then w
      else World(Marked(db, j, pc.doc, if pc.deleted then Deleted else RetainedReferenced), w.attempts[j := Visiting(pc.left)])
    case RefFails(_, doc) =>
      if pc.Visiting? && doc in pc.left && doc in job.refs && !Done(job.refs[doc])
      then World(Marked(db, j, doc, RefFailed), w.attempts[j := Failing])
      else if pc.Marking? then World(Marked(db, j, pc.doc, RefFailed), w.attempts[j := Failing])
      else w
    case JobFails(_) =>
      World(if job.state == Completed then db else WithJob(db, j, job.(state := Failed)), w.attempts - {j})
    case Kill(_) => w.(attempts := w.attempts - {j})
    case Finish(_) =>
      if !pc.Visiting? || pc.left != {} then w
      else World(WithJob(WithoutUser(db, job.subject), j, job.(state := Completed)), w.attempts - {j})
    case _ => w
  }

  function JobOf(step: Step): Option<nat> {
    match step
    case Clean(j) => Some(j) case Skip(j, _) => Some(j) case CollectRef(j, _) => Some(j) case Mark(j) => Some(j)
    case RefFails(j, _) => Some(j) case JobFails(j) => Some(j) case Kill(j) => Some(j) case Finish(j) => Some(j)
    case _ => None
  }

  function Next(w: World, step: Step): World {
    if step.Start? then
      var j := step.job;
      if j !in w.db.jobs || w.db.jobs[j].state == Completed || j in w.attempts then w
      else World(WithJob(w.db, j, w.db.jobs[j].(state := Running)), w.attempts[j := Cleanup])
    else if JobOf(step).Some? then
      var j := JobOf(step).value;
      if j in w.db.jobs && j in w.attempts then AttemptStep(w, j, step) else w
    else w.(db := SharedStep(w.db, step))
  }

  function After(w: World, steps: seq<Step>): World
    decreases |steps|
  {
    if steps == [] then w else After(Next(w, steps[0]), steps[1..])
  }

  const START := World(Db(map[], {}, {}, map[], map[], 0), map[])

  // ---------- the services over the tables ----------

  class AccessStore {
    var users: map<nat, UserStatus>
    var documents: set<nat>
    var private: set<Grant>
    var globals: map<nat, Option<nat>>
    var jobs: map<nat, Job>
    var next: nat

    constructor ()
      ensures Rows() == START.db
    {
      users, documents, private, globals, jobs, next := map[], {}, {}, map[], map[], 0;
    }

    function Rows(): Db
      reads this
    {
      Db(users, documents, private, globals, jobs, next)
    }

    predicate HasReferences(doc: nat)
      reads this
      ensures HasReferences(doc) <==> Referenced(Rows(), doc)
    {
      doc in globals || exists g | g in private :: g.document == doc
    }

    method GrantPrivate(user: nat, doc: nat) returns (ok: bool)
      modifies this`private
      ensures (Rows(), ok) == PrivatelyGranted(old(Rows()), user, doc)
    {
      if doc !in documents || user !in users {
        return false;
      }
      if Grant(doc, user) !in private {
        private := private + {Grant(doc, user)};
      }
      assert private == old(private) + {Grant(doc, user)};
      ok := true;
    }

    method GrantGlobal(admin: nat, doc: nat) returns (ok: bool)
      modifies this`globals
      ensures (Rows(), ok) == GloballyGranted(old(Rows()), admin, doc)
    {
      if doc !in documents || admin !in users {
        return false;
      }
      if doc !in globals {
        globals := globals[doc := Some(admin)];
      }
      ok := true;
    }

    method RevokePrivate(user: nat, doc: nat) returns (revoked: Revocation)
      modifies this`private
      ensures (Rows(), revoked) == PrivatelyRevoked(old(Rows()), user, doc)
      ensures revoked.Revoked? ==> (revoked.orphaned <==> !Referenced(Rows(), doc))
    {
      if doc !in documents || Grant(doc, user) !in private {
        return NotFound;
      }
      private := private - {Grant(doc, user)};
      revoked := Revoked(!HasReferences(doc));
    }

    method RevokeGlobal(doc: nat) returns (revoked: Revocation)
      modifies this`globals
      ensures (Rows(), revoked) == GloballyRevoked(old(Rows()), doc)
      ensures revoked.Revoked? ==> (revoked.orphaned <==> !Referenced(Rows(), doc))
    {
      if doc !in documents || doc !in globals {
        return NotFound;
      }
      globals := globals - {doc};
      revoked := Revoked(!HasReferences(doc));
    }

    method RevokeFromLibrary(user: nat, admin: bool, doc: nat) returns (revoked: Revocation)
      modifies this`private, this`globals
      ensures (Rows(), revoked) == LibraryRevoked(old(Rows()), user, admin, doc)
      ensures revoked.Revoked? ==> (revoked.orphaned <==> !Referenced(Rows(), doc))
    {
      if doc !in documents {
        return NotFound;
      }
      if Grant(doc, user) in private {
        private := private - {Grant(doc, user)};
      } else if doc in globals && admin {
        globals := globals - {doc};
      } else {
        return NotFound;
      }
      revoked := Revoked(!HasReferences(doc));
    }

    method CollectCanonicalDocument(doc: nat) returns (gone: bool)
      modifies this`documents, this`private, this`globals
      ensures (Rows(), gone) == Collected(old(Rows()), doc)
    {
      if doc !in documents {
        return true;
      }
      if HasReferences(doc) {
        return false;
      }
      documents := documents - {doc};
      private := set g | g in private && g.document != doc;
      globals := globals - {doc};
      gone := true;
    }

    method RequestAccountDeletion(user: nat, passwordOk: bool)
      modifies this`users, this`jobs, this`next
      ensures Rows() == Requested(old(Rows()), user, passwordOk)
    {
      if user !in users || users[user] != Active || !passwordOk {
        return;
      }
      if exists j | j in jobs :: jobs[j].subject == user && jobs[j].state != Completed {
        return;
      }
      var granted := set g | g in private && g.user == user :: g.document;
      jobs := jobs[next := Job(user, Pending, map d | d in granted :: RefPending)];
      users := users[user := Deleting];
      next := next + 1;
    }

    /** The first two commits of an attempt. */
    method BeginAttempt(j: nat)
      requires j in jobs && jobs[j].state != Completed
      modifies this`private, this`jobs
      ensures j in jobs && jobs[j] == old(jobs[j]).(state := Running)
      ensures World(Rows(), map[j := Visiting(jobs[j].refs.Keys)]) ==
        Next(Next(World(old(Rows()), map[]), Start(j)), Clean(j))
    {
      jobs := jobs[j := jobs[j].(state := Running)];
      ghost var started := World(Rows(), map[j := Cleanup]);
      assert started == Next(World(old(Rows()), map[]), Start(j));
      var subject := jobs[j].subject;
      private := set g | g in private && g.user != subject;
      assert map[j := Cleanup][j := Visiting(jobs[j].refs.Keys)] == map[j := Visiting(jobs[j].refs.Keys)];
    }

    /** Collects one document and marks its reference. */
    method VisitRef(j: nat, doc: nat, ghost left: set<nat>)
      requires j in jobs && doc in left && doc in jobs[j].refs && !Done(jobs[j].refs[doc])
      modifies this`documents, this`private, this`globals, this`jobs
      ensures World(Rows(), map[j := Visiting(left - {doc})]) ==
        Next(Next(World(old(Rows()), map[j := Visiting(left)]), CollectRef(j, doc)), Mark(j))
      ensures j in jobs && jobs[j].subject == old(jobs[j].subject) && jobs[j].state == old(jobs[j].state)
      ensures jobs[j].refs.Keys == old(jobs[j].refs.Keys)
    {
      hide Next, Collected;
      ghost var before := Rows();
      Collecting(before, j, doc, left);
      var gone := CollectCanonicalDocument(doc);
      MarkingRef(Rows(), j, doc, gone, left - {doc});
      jobs := jobs[j := jobs[j].(refs := jobs[j].refs[doc := if gone then Deleted else RetainedReferenced])];
    }

    /** What is committed when a collection raises. */
    method FailAttempt(j: nat, doc: nat, ghost left: set<nat>)
      requires j in jobs && doc in left && doc in jobs[j].refs && !Done(jobs[j].refs[doc]) && jobs[j].state != Completed
      modifies this`jobs
      ensures World(Rows(), map[]) == Next(Next(World(old(Rows()), map[j := Visiting(left)]), RefFails(j, doc)), JobFails(j))
      ensures j in jobs && jobs[j].state == Failed
    {
      ghost var before := World(Rows(), map[j := Visiting(left)]);
      jobs := jobs[j := jobs[j].(refs := jobs[j].refs[doc := RefFailed])];
      assert World(Rows(), map[j := Failing]) == Next(before, RefFails(j, doc));
      jobs := jobs[j := jobs[j].(state := Failed)];
    }

    method FinishAttempt(j: nat)
      requires j in jobs
      modifies this`users, this`private, this`globals, this`jobs
      ensures World(Rows(), map[]) == Next(World(old(Rows()), map[j := Visiting({})]), Finish(j))
      ensures j in jobs && jobs[j].state == Completed
    {
      var subject := jobs[j].subject;
      users := users - {subject};
      private := set g | g in private && g.user != subject;
      globals := map d | d in globals :: if globals[d] == Some(subject) then None else globals[d];
      jobs := jobs[j := jobs[j].(state := Completed)];
    }

    /** One attempt nobody disturbs, in which collecting a document of `failing` raises. It is a run of the step
        system, so all that holds of every run holds of it. */
    method ProcessAccountDeletion(j: nat, failing: set<nat>) returns (ghost script: seq<Step>)
      modifies this
      ensures World(Rows(), map[]) == After(World(old(Rows()), map[]), script)
      ensures j in old(jobs) ==> j in jobs && (jobs[j].state == Completed || (jobs[j].state == Failed && failing != {}))
    {
      hide Next;
      script := [];
      if j !in jobs || jobs[j].state == Completed {
        return;
      }
      ghost var start := World(Rows(), map[]);
      BeginAttempt(j);
      AfterTwo(start, script, Start(j), Clean(j));
      script := script + [Start(j), Clean(j)];
      var left := jobs[j].refs.Keys;
      while left != {}
        invariant j in jobs && jobs[j].state == Running && left <= jobs[j].refs.Keys
        invariant After(start, script) == World(Rows(), map[j := Visiting(left)])
        decreases |left|
      {
        var doc :| doc in left;
        if Done(jobs[j].refs[doc]) {
          AfterLast(start, script, Skip(j, doc));
          Skipping(Rows(), j, doc, left);
          script := script + [Skip(j, doc)];
        } else if doc in failing {
          AfterTwo(start, script, RefFails(j, doc), JobFails(j));
          script := script + [RefFails(j, doc), JobFails(j)];
          FailAttempt(j, doc, left);
          return;
        } else {
          AfterTwo(start, script, CollectRef(j, doc), Mark(j));
          script := script + [CollectRef(j, doc), Mark(j)];
          VisitRef(j, doc, left);
        }
        left := left - {doc};
      }
      AfterLast(start, script, Finish(j));
      script := script + [Finish(j)];
      FinishAttempt(j);
    }
  }

  lemma Collecting(db: Db, j: nat, doc: nat, left: set<nat>)
    requires j in db.jobs && doc in left && doc in db.jobs[j].refs && !Done(db.jobs[j].refs[doc])
    ensures Next(World(db, map[j := Visiting(left)]), CollectRef(j, doc)) ==
      World(Collected(db, doc).0, map[j := Marking(doc, Collected(db, doc).1, left - {doc})])
  {
    hide Collected;
    assert map[j := Visiting(left)][j := Marking(doc, Collected(db, doc).1, left - {doc})] ==
      map[j := Marking(doc, Collected(db, doc).1, left - {doc})];
  }

  lemma MarkingRef(db: Db, j: nat, doc: nat, deleted: bool, left: set<nat>)
    requires j in db.jobs
    ensures Next(World(db, map[j := Marking(doc, deleted, left)]), Mark(j)) ==
      World(Marked(db, j, doc, if deleted then Deleted else RetainedReferenced), map[j := Visiting(left)])
  {
    assert map[j := Marking(doc, deleted, left)][j := Visiting(left)] == map[j := Visiting(left)];
  }

  lemma Skipping(db: Db, j: nat, doc: nat, left: set<nat>)
    requires j in db.jobs && doc in left && doc in db.jobs[j].refs && Done(db.jobs[j].refs[doc])
    ensures Next(World(db, map[j := Visiting(left)]), Skip(j, doc)) == World(db, map[j := Visiting(left - {doc})])
  {
  }

  lemma AfterTwo(w: World, steps: seq<Step>, one: Step, two: Step)
    ensures After(w, steps + [one, two]) == Next(Next(After(w, steps), one), two)
  {
    hide Next;
    AfterLast(w, steps, one);
    AfterLast(w, steps + [one], two);
    assert steps + [one] + [two] == steps + [one, two];
  }

  lemma {:induction false} AfterLast(w: World, steps: seq<Step>, step: Step)
    ensures After(w, steps + [step]) == Next(After(w, steps), step)
    decreases |steps|
  {
    if steps != [] {
      AfterLast(Next(w, steps[0]), steps[1..], step);
      assert (steps + [step])[1..] == steps[1..] + [step];
    }
  }

  // ---------- the invariant ----------

  /** No grant dangles, and every id in use has been handed out. */
  ghost predicate GrantsOk(db: Db) {
    && (forall g | g in db.private :: g.document in db.documents && g.user in db.users)
    && (forall d | d in db.globals :: d in db.documents && (db.globals[d].Some? ==> db.globals[d].value in db.users))
    && (forall d | d in db.documents :: d < db.next)
    && (forall u | u in db.users :: u < db.next)
    && (forall j | j in db.jobs :: j < db.next)
  }

  ghost predicate JobOk(db: Db, job: Job) {
    && job.subject < db.next
    && (forall d | d in job.refs :: d < db.next && (job.refs[d] == Deleted ==> d !in db.documents))
    && (job.state == Completed ==> job.subject !in db.users && forall d | d in job.refs :: Done(job.refs[d]))
    && (job.state != Completed ==> job.subject in db.users && db.users[job.subject] == Deleting)
  }

  ghost predicate AttemptOk(db: Db, job: Job, pc: Pc) {
    && job.state != Completed
    && (pc.Visiting? ==> forall d | d in job.refs :: d in pc.left || Done(job.refs[d]))
    && (pc.Marking? ==>
          && pc.doc in job.refs && (pc.deleted ==> pc.doc !in db.documents)
          && forall d | d in job.refs :: d in pc.left || d == pc.doc || Done(job.refs[d]))
  }

  /** A user with an open job has no other job. */
  ghost predicate OneOpenJob(jobs: map<nat, Job>) {
    forall j, k | j in jobs && k in jobs && j != k && jobs[j].subject == jobs[k].subject ::
      jobs[j].state == Completed && jobs[k].state == Completed
  }

  ghost predicate Inv(w: World) {
    && GrantsOk(w.db)
    && (forall j | j in w.db.jobs :: JobOk(w.db, w.db.jobs[j]))
    && (forall j | j in w.attempts :: j in w.db.jobs && AttemptOk(w.db, w.db.jobs[j], w.attempts[j]))
    && OneOpenJob(w.db.jobs)
  }

  /** What the jobs rely on: documents and users of theirs that are gone stay gone, and a user being deleted stays so. */
  ghost predicate Quiet(db: Db, db': Db) {
    && db'.next >= db.next
    && (forall d | d in db'.documents :: d in db.documents || d >= db.next)
    && (forall u | u in db'.users :: u in db.users || u >= db.next)
    && (forall u | u in db.users && db.users[u] == Deleting :: u in db'.users && db'.users[u] == Deleting)
  }

  lemma JobStaysOk(db: Db, db': Db, job: Job)
    requires JobOk(db, job) && Quiet(db, db')
    ensures JobOk(db', job)
  {
  }

  lemma QuietKeeps(w: World, db': Db)
    requires Inv(w) && Quiet(w.db, db') && GrantsOk(db') && db'.jobs == w.db.jobs
    ensures Inv(w.(db := db'))
  {
    hide GrantsOk;
    forall j | j in w.db.jobs ensures JobOk(db', w.db.jobs[j]) { JobStaysOk(w.db, db', w.db.jobs[j]); }
    hide JobOk;
    forall j | j in w.attempts ensures AttemptOk(db', w.db.jobs[j], w.attempts[j]) {
      assert AttemptOk(w.db, w.db.jobs[j], w.attempts[j]);
      RefsOld(w, j);
    }
  }

  lemma RefsOld(w: World, j: nat)
    requires Inv(w) && j in w.attempts
    ensures forall d | d in w.db.jobs[j].refs :: d < w.db.next
  {
    assert JobOk(w.db, w.db.jobs[j]);
  }

  lemma Subjects(w: World, j: nat, job: Job)
    requires Inv(w) && j in w.db.jobs && job.subject == w.db.jobs[j].subject && w.db.jobs[j].state != Completed
    ensures forall i | i in w.db.jobs && i != j :: w.db.jobs[i].subject != job.subject
  {
    hide JobOk, AttemptOk, GrantsOk;
  }

  lemma StillOneOpen(jobs: map<nat, Job>, j: nat, job: Job)
    requires OneOpenJob(jobs) && forall i | i in jobs && i != j :: jobs[i].subject != job.subject
    ensures OneOpenJob(jobs[j := job])
  {
  }

  /** The other jobs and attempts do not notice that one job changes, nor that its user goes. */
  lemma OthersStay(w: World, db': Db, j: nat, user: nat)
    requires Inv(w) && QuietBut(w.db, db', user)
    requires forall i | i in w.db.jobs && i != j :: w.db.jobs[i].subject != user
    ensures forall i | i in w.db.jobs && i != j :: JobOk(db', w.db.jobs[i])
  {
    forall i | i in w.db.jobs && i != j ensures JobOk(db', w.db.jobs[i]) {
      assert JobOk(w.db, w.db.jobs[i]);
      hide Inv;
    }
  }

  lemma AttemptStays(w: World, db': Db, i: nat, user: nat)
    requires Inv(w) && i in w.attempts && QuietBut(w.db, db', user)
    ensures i in w.db.jobs && AttemptOk(db', w.db.jobs[i], w.attempts[i])
  {
    assert AttemptOk(w.db, w.db.jobs[i], w.attempts[i]);
    RefsOld(w, i);
    hide Inv, GrantsOk, JobOk;
  }

  /** Replacing one job and its attempt. */
  lemma JobKeeps(w: World, db': Db, j: nat, job: Job, attempts: map<nat, Pc>)
    requires Inv(w) && j in w.db.jobs && job.subject == w.db.jobs[j].subject && w.db.jobs[j].state != Completed
    requires Quiet(w.db, db') || (job.state == Completed && QuietBut(w.db, db', job.subject))
    requires GrantsOk(db') && db'.jobs == w.db.jobs[j := job] && JobOk(db', job)
    requires attempts - {j} == w.attempts - {j} && (j in attempts ==> AttemptOk(db', job, attempts[j]))
    ensures Inv(World(db', attempts))
  {
    Subjects(w, j, job);
    assert QuietBut(w.db, db', job.subject);
    OthersStay(w, db', j, job.subject);
    StillOneOpen(w.db.jobs, j, job);
    hide GrantsOk, JobOk, Quiet, QuietBut, OneOpenJob;
    forall i | i in attempts ensures i in db'.jobs && AttemptOk(db', db'.jobs[i], attempts[i]) {
      if i != j {
        assert i in attempts - {j};
        assert (attempts - {j})[i] == (w.attempts - {j})[i];
        AttemptStays(w, db', i, job.subject);
      }
    }
    hide AttemptOk;
  }

  /** As `Quiet`, except that one user is deleted. */
  ghost predicate QuietBut(db: Db, db': Db, user: nat) {
    && db'.next >= db.next
    && (forall d | d in db'.documents :: d in db.documents || d >= db.next)
    && (forall u | u in db'.users :: u in db.users || u >= db.next)
    && (forall u | u in db.users && db.users[u] == Deleting && u != user :: u in db'.users && db'.users[u] == Deleting)
  }

  // ---------- every step keeps it ----------

  lemma SharedQuiet(db: Db, step: Step)
    requires GrantsOk(db) && !step.Request? && !step.Queue?
    ensures GrantsOk(SharedStep(db, step)) && Quiet(db, SharedStep(db, step)) && SharedStep(db, step).jobs == db.jobs
  {
    if step.RevokeFromLibrary? || step.RevokePrivate? || step.RevokeGlobal? {
      RevokedQuiet(db, step);
      hide SharedStep;
    } else if step.Gc? {
      CollectQuiet(db, step.doc);
      hide Collected, GrantsOk;
    }
  }

  lemma RevokedQuiet(db: Db, step: Step)
    requires GrantsOk(db) && (step.RevokeFromLibrary? || step.RevokePrivate? || step.RevokeGlobal?)
    ensures GrantsOk(SharedStep(db, step)) && Quiet(db, SharedStep(db, step)) && SharedStep(db, step).jobs == db.jobs
  {
    hide Referenced;
  }

  lemma RequestKeeps(w: World, user: nat, passwordOk: bool)
    requires Inv(w)
    ensures Inv(w.(db := Requested(w.db, user, passwordOk)))
  {
    var db, db' := w.db, Requested(w.db, user, passwordOk);
    if db' != db {
      RequestJob(w, user, passwordOk);
      var same := db'.(jobs := db.jobs);
      assert GrantsOk(same) && Quiet(db, same);
      QuietKeeps(w, same);
      hide GrantsOk, JobOk;
      NewJobKeeps(w.(db := same), db', db.next);
    }
  }

  lemma RequestJob(w: World, user: nat, passwordOk: bool)
    requires Inv(w) && Requested(w.db, user, passwordOk) != w.db
    ensures var db' := Requested(w.db, user, passwordOk);
      && db'.jobs.Keys == w.db.jobs.Keys + {w.db.next} && w.db.next !in w.db.jobs
      && (forall j | j in w.db.jobs :: db'.jobs[j] == w.db.jobs[j] && w.db.jobs[j].subject != user)
      && JobOk(db', db'.jobs[w.db.next]) && db'.jobs[w.db.next].subject == user
      && GrantsOk(db') && db'.jobs[w.db.next].refs.Keys == GrantedTo(w.db, user)
  {
    forall j | j in w.db.jobs ensures w.db.jobs[j].subject != user {
      assert JobOk(w.db, w.db.jobs[j]);
    }
  }

  lemma NewJobKeeps(w: World, db': Db, j: nat)
    requires Inv(w) && db' == w.db.(jobs := db'.jobs) && GrantsOk(db')
    requires j !in w.db.jobs && db'.jobs.Keys == w.db.jobs.Keys + {j} && JobOk(db', db'.jobs[j])
    requires forall i | i in w.db.jobs :: db'.jobs[i] == w.db.jobs[i] && w.db.jobs[i].subject != db'.jobs[j].subject
    ensures Inv(w.(db := db'))
  {
    hide GrantsOk;
    forall i | i in w.db.jobs ensures JobOk(db', db'.jobs[i]) { assert JobOk(w.db, w.db.jobs[i]); }
    hide JobOk;
    forall i | i in w.attempts ensures i in db'.jobs && AttemptOk(db', db'.jobs[i], w.attempts[i]) {
      assert AttemptOk(w.db, w.db.jobs[i], w.attempts[i]);
    }
  }

  lemma SharedKeeps(w: World, step: Step)
    requires Inv(w)
    ensures Inv(w.(db := SharedStep(w.db, step)))
  {
    hide GrantsOk, JobOk, AttemptOk;
    if step.Request? {
      RequestKeeps(w, step.user, step.passwordOk);
    } else if step.Queue? {
      var j := step.job;
      if SharedStep(w.db, step) != w.db { StateKeeps(w, j, Queued, w.attempts); }
    } else {
      SharedQuiet(w.db, step);
      QuietKeeps(w, SharedStep(w.db, step));
    }
  }

  lemma StateKeeps(w: World, j: nat, state: JobState, attempts: map<nat, Pc>)
    requires Inv(w) && j in w.db.jobs && w.db.jobs[j].state != Completed && state != Completed
    requires attempts - {j} == w.attempts - {j}
    requires j in attempts ==> AttemptOk(w.db, w.db.jobs[j], attempts[j])
    ensures Inv(World(WithJob(w.db, j, w.db.jobs[j].(state := state)), attempts))
  {
    var job := w.db.jobs[j].(state := state);
    assert JobOk(w.db, w.db.jobs[j]);
    JobKeeps(w, WithJob(w.db, j, job), j, job, attempts);
  }

  lemma MarkedKeeps(w: World, j: nat, doc: nat, state: RefState, attempts: map<nat, Pc>)
    requires Inv(w) && j in w.db.jobs && w.db.jobs[j].state != Completed && doc in w.db.jobs[j].refs
    requires state == Deleted ==> doc !in w.db.documents
    requires attempts - {j} == w.attempts - {j}
    requires j in attempts ==> AttemptOk(w.db, Marked(w.db, j, doc, state).jobs[j], attempts[j])
    ensures Inv(World(Marked(w.db, j, doc, state), attempts))
  {
    var job := w.db.jobs[j].(refs := w.db.jobs[j].refs[doc := state]);
    assert JobOk(w.db, w.db.jobs[j]);
    JobKeeps(w, Marked(w.db, j, doc, state), j, job, attempts);
  }

  lemma PcKeeps(w: World, j: nat, attempts: map<nat, Pc>)
    requires Inv(w) && attempts - {j} == w.attempts - {j}
    requires j in attempts ==> j in w.db.jobs && AttemptOk(w.db, w.db.jobs[j], attempts[j])
    ensures Inv(w.(attempts := attempts))
  {
    hide GrantsOk, JobOk, AttemptOk;
    forall i | i in attempts ensures i in w.db.jobs && AttemptOk(w.db, w.db.jobs[i], attempts[i]) {
      if i != j {
        assert i in attempts - {j};
        assert (attempts - {j})[i] == (w.attempts - {j})[i];
      }
    }
  }

  lemma DbThenPc(w: World, db': Db, j: nat, pc: Pc)
    requires Inv(w) && j in w.attempts && Quiet(w.db, db') && GrantsOk(db') && db'.jobs == w.db.jobs
    requires AttemptOk(db', w.db.jobs[j], pc)
    ensures Inv(World(db', w.attempts[j := pc]))
  {
    QuietKeeps(w, db');
    hide GrantsOk, JobOk, AttemptOk;
    PcKeeps(w.(db := db'), j, w.attempts[j := pc]);
  }

  lemma CleanKeeps(w: World, j: nat)
    requires Inv(w) && j in w.attempts
    ensures Inv(AttemptStep(w, j, Clean(j)))
  {
    var job := w.db.jobs[j];
    assert AttemptOk(w.db, job, w.attempts[j]);
    DbThenPc(w, WithoutGrants(w.db, job.subject), j, Visiting(job.refs.Keys));
  }

  lemma SkipKeeps(w: World, j: nat, doc: nat)
    requires Inv(w) && j in w.attempts
    ensures Inv(AttemptStep(w, j, Skip(j, doc)))
  {
    var pc := w.attempts[j];
    assert AttemptOk(w.db, w.db.jobs[j], pc);
    if AttemptStep(w, j, Skip(j, doc)) != w { PcKeeps(w, j, w.attempts[j := Visiting(pc.left - {doc})]); }
  }

  lemma CollectKeeps(w: World, j: nat, doc: nat)
    requires Inv(w) && j in w.attempts
    ensures Inv(AttemptStep(w, j, CollectRef(j, doc)))
  {
    var pc := w.attempts[j];
    assert AttemptOk(w.db, w.db.jobs[j], pc);
    if AttemptStep(w, j, CollectRef(j, doc)) != w {
      var (db', deleted) := Collected(w.db, doc);
      CollectQuiet(w.db, doc);
      DbThenPc(w, db', j, Marking(doc, deleted, pc.left - {doc}));
    }
  }

  lemma CollectQuiet(db: Db, doc: nat)
    requires GrantsOk(db)
    ensures var (db', deleted) := Collected(db, doc);
      GrantsOk(db') && Quiet(db, db') && db'.jobs == db.jobs && (deleted ==> doc !in db'.documents)
  {
  }

  lemma MarkKeeps(w: World, j: nat)
    requires Inv(w) && j in w.attempts
    ensures Inv(AttemptStep(w, j, Mark(j)))
  {
    var pc := w.attempts[j];
    assert AttemptOk(w.db, w.db.jobs[j], pc);
    if pc.Marking? {
      MarkedKeeps(w, j, pc.doc, if pc.deleted then Deleted else RetainedReferenced, w.attempts[j := Visiting(pc.left)]);
    }
  }

  lemma RefFailsKeeps(w: World, j: nat, doc: nat)
    requires Inv(w) && j in w.attempts
    ensures Inv(AttemptStep(w, j, RefFails(j, doc)))
  {
    var pc := w.attempts[j];
    assert AttemptOk(w.db, w.db.jobs[j], pc);
    if AttemptStep(w, j, RefFails(j, doc)) != w {
      MarkedKeeps(w, j, if pc.Marking? then pc.doc else doc, RefFailed, w.attempts[j := Failing]);
    }
  }

  lemma FinishKeeps(w: World, j: nat)
    requires Inv(w) && j in w.attempts
    ensures Inv(AttemptStep(w, j, Finish(j)))
  {
    var pc, job := w.attempts[j], w.db.jobs[j];
    if pc.Visiting? && pc.left == {} {
      var done := job.(state := Completed);
      FinishedOk(w.db, job, pc, j);
      hide GrantsOk, JobOk, AttemptOk, QuietBut;
      JobKeeps(w, WithJob(WithoutUser(w.db, job.subject), j, done), j, done, w.attempts - {j});
    }
  }

  lemma FinishedOk(db: Db, job: Job, pc: Pc, j: nat)
    requires GrantsOk(db) && JobOk(db, job) && AttemptOk(db, job, pc) && pc.Visiting? && pc.left == {}
    requires j in db.jobs
    ensures var done := job.(state := Completed); var db' := WithJob(WithoutUser(db, job.subject), j, done);
      job.state != Completed && GrantsOk(db') && JobOk(db', done) && QuietBut(db, db', job.subject)
  {
    UserGone(db, job.subject);
  }

  lemma UserGone(db: Db, user: nat)
    requires GrantsOk(db)
    ensures GrantsOk(WithoutUser(db, user)) && QuietBut(db, WithoutUser(db, user), user)
  {
  }

  lemma AttemptKeeps(w: World, j: nat, step: Step)
    requires Inv(w) && j in w.attempts && JobOf(step) == Some(j)
    ensures Inv(AttemptStep(w, j, step))
  {
    hide GrantsOk, JobOk, AttemptOk;
    var attempts := w.attempts - {j};
    assert AttemptOk(w.db, w.db.jobs[j], w.attempts[j]);
    OpenAttempt(w.db, w.db.jobs[j], w.attempts[j]);
    if step.Clean? { CleanKeeps(w, j); }
    else if step.Skip? { SkipKeeps(w, j, step.doc); }
    else if step.CollectRef? { CollectKeeps(w, j, step.doc); }
    else if step.Mark? { MarkKeeps(w, j); }
    else if step.RefFails? { RefFailsKeeps(w, j, step.doc); }
    else if step.JobFails? { StateKeeps(w, j, Failed, attempts); }
    else if step.Kill? { PcKeeps(w, j, attempts); }
    else { FinishKeeps(w, j); }
  }

  lemma OpenAttempt(db: Db, job: Job, pc: Pc)
    requires AttemptOk(db, job, pc)
    ensures job.state != Completed
  {
  }

  lemma StepKeeps(w: World, step: Step)
    requires Inv(w)
    ensures Inv(Next(w, step))
  {
    hide GrantsOk, JobOk, AttemptStep, SharedStep;
    if step.Start? {
      var j := step.job;
      if Next(w, step) != w { StateKeeps(w, j, Running, w.attempts[j := Cleanup]); }
    } else if JobOf(step).Some? {
      if Next(w, step) != w { AttemptKeeps(w, JobOf(step).value, step); }
    } else {
      SharedKeeps(w, step);
    }
  }

  lemma {:induction false} RunKeeps(w: World, steps: seq<Step>)
    requires Inv(w)
    ensures Inv(After(w, steps))
    decreases |steps|
  {
    hide Inv, Next;
    if steps != [] {
      StepKeeps(w, steps[0]);
      RunKeeps(Next(w, steps[0]), steps[1..]);
    }
  }

  // ---------- what deletion means ----------

  /** A document row goes only when no private and no global grant refers to it, and its going takes no grant along. */
  lemma RemovedOnlyUnreferenced(w: World, step: Step, doc: nat)
    requires Inv(w) && doc in w.db.documents && doc !in Next(w, step).db.documents
    ensures !Referenced(w.db, doc)
    ensures Next(w, step).db.private == w.db.private && Next(w, step).db.globals == w.db.globals
  {
    hide Inv, JobOk, AttemptOk;
    if step.Gc? || step.CollectRef? {
      CollectTakesOne(w.db, step.doc);
      assert Next(w, step).db == Collected(w.db, step.doc).0;
    } else {
      NothingElseRemoves(w, step);
    }
  }

  lemma NothingElseRemoves(w: World, step: Step)
    requires !step.Gc? && !step.CollectRef?
    ensures w.db.documents <= Next(w, step).db.documents
  {
    hide Referenced;
  }

  /** Collecting says gone exactly when the document is, and takes that one row exactly when nothing refers to it. */
  lemma CollectTakesOne(db: Db, doc: nat)
    ensures var (db', gone) := Collected(db, doc);
      && (gone <==> doc !in db'.documents)
      && (doc in db.documents ==> (gone <==> !Referenced(db, doc)))
      && db'.documents == (if gone then db.documents - {doc} else db.documents)
      && (db' == db || (!Referenced(db, doc) && db'.private == db.private && db'.globals == db.globals))
  {
  }

  /** In every reachable state no grant dangles, a user has at most one open job, and a completed job leaves its user
      without any grant and every document of its snapshot gone or retained because it was referenced. */
  lemma ReachableSafe(steps: seq<Step>)
    ensures var db := After(START, steps).db;
      && (forall g | g in db.private :: g.document in db.documents && g.user in db.users)
      && (forall d | d in db.globals :: d in db.documents && (db.globals[d].Some? ==> db.globals[d].value in db.users))
      && (forall j, k | j in db.jobs && k in db.jobs && db.jobs[j].subject == db.jobs[k].subject && db.jobs[j].state != Completed ::
            j == k)
      && (forall j | j in db.jobs && db.jobs[j].state == Completed :: Erased(db, db.jobs[j]))
  {
    RunKeeps(START, steps);
    var w := After(START, steps);
    forall j | j in w.db.jobs && w.db.jobs[j].state == Completed ensures Erased(w.db, w.db.jobs[j]) {
      assert JobOk(w.db, w.db.jobs[j]);
    }
  }

  ghost predicate Erased(db: Db, job: Job) {
    && job.subject !in db.users
    && (forall g | g in db.private :: g.user != job.subject)
    && (forall d | d in job.refs :: (job.refs[d] == Deleted && d !in db.documents) || job.refs[d] == RetainedReferenced)
  }

  /** A job keeps its user and its snapshot, and a completed job never changes again. */
  ghost predicate Follows(job: Job, job': Job) {
    job'.subject == job.subject && job'.refs.Keys == job.refs.Keys && (job.state == Completed ==> job' == job)
  }

  lemma StepFollows(w: World, step: Step, j: nat)
    requires Inv(w) && j in w.db.jobs
    ensures j in Next(w, step).db.jobs && Follows(w.db.jobs[j], Next(w, step).db.jobs[j])
  {
    hide GrantsOk, JobOk, AttemptOk, AttemptStep, SharedStep;
    if step.Start? {
    } else if JobOf(step).Some? {
      var i := JobOf(step).value;
      if i in w.db.jobs && i in w.attempts {
        assert AttemptOk(w.db, w.db.jobs[i], w.attempts[i]);
        hide Inv, Follows;
        AttemptFollows(w, i, step, j);
      }
    } else {
      NewJobId(w);
      hide Inv, Follows;
      SharedFollows(w.db, step, j);
    }
  }

  lemma SharedFollows(db: Db, step: Step, j: nat)
    requires j in db.jobs && db.next !in db.jobs
    ensures j in SharedStep(db, step).jobs && Follows(db.jobs[j], SharedStep(db, step).jobs[j])
  {
    hide Referenced, HasOpenJob, GrantedTo;
  }

  lemma NewJobId(w: World)
    requires Inv(w)
    ensures w.db.next !in w.db.jobs
  {
  }

  lemma AttemptFollows(w: World, i: nat, step: Step, j: nat)
    requires j in w.db.jobs && i in w.db.jobs && i in w.attempts && AttemptOk(w.db, w.db.jobs[i], w.attempts[i])
    ensures j in AttemptStep(w, i, step).db.jobs && Follows(w.db.jobs[j], AttemptStep(w, i, step).db.jobs[j])
  {
  }

  lemma {:induction false} RunFollows(w: World, steps: seq<Step>, j: nat)
    requires Inv(w) && j in w.db.jobs
    ensures j in After(w, steps).db.jobs && Follows(w.db.jobs[j], After(w, steps).db.jobs[j])
    decreases |steps|
  {
    hide Inv, Next;
    if steps != [] {
      StepKeeps(w, steps[0]);
      StepFollows(w, steps[0], j);
      RunFollows(Next(w, steps[0]), steps[1..], j);
    }
  }

  /** Requesting snapshots exactly the documents granted to the user; completion then accounts for each of them. */
  lemma SnapshotIsErased(w: World, user: nat, passwordOk: bool, steps: seq<Step>)
    requires Inv(w) && Requested(w.db, user, passwordOk) != w.db
    ensures var w', j := Next(w, Request(user, passwordOk)), w.db.next;
      && j in w'.db.jobs
      && var db := After(w', steps).db;
         && j in db.jobs && db.jobs[j].subject == user && db.jobs[j].refs.Keys == GrantedTo(w.db, user)
         && (db.jobs[j].state == Completed ==> Erased(db, db.jobs[j]))
  {
    var step, j := Request(user, passwordOk), w.db.next;
    var w' := Next(w, step);
    StepKeeps(w, step);
    RequestJob(w, user, passwordOk);
    RunFollows(w', steps, j);
    RunKeeps(w', steps);
    assert JobOk(After(w', steps).db, After(w', steps).db.jobs[j]);
  }

  /** Deleting an account never takes a grant from anybody else. */
  lemma OthersKeepGrants(w: World, step: Step, g: Grant)
    requires Inv(w) && JobOf(step).Some? && JobOf(step).value in w.db.jobs
    requires g in w.db.private && g.user != w.db.jobs[JobOf(step).value].subject
    ensures g in Next(w, step).db.private
  {
    hide Inv;
  }

  // ---------- why a document is retained ----------

  /** Everybody has the document, or somebody other than `user`. */
  predicate HeldByOthers(db: Db, doc: nat, user: nat) {
    doc in db.globals || exists g | g in db.private :: g.document == doc && g.user != user
  }

  /** At some point of the run. */
  predicate EverHeld(w: World, steps: seq<Step>, doc: nat, user: nat)
    decreases |steps|
  {
    HeldByOthers(w.db, doc, user) || (steps != [] && EverHeld(Next(w, steps[0]), steps[1..], doc, user))
  }

  /** Grants the document to the user while the account is being deleted. */
  predicate LateGrant(db: Db, step: Step, doc: nat, user: nat) {
    step == GrantPrivate(user, doc) && user in db.users && db.users[user] == Deleting
  }

  predicate NoLateGrants(w: World, steps: seq<Step>, doc: nat, user: nat)
    decreases |steps|
  {
    steps == [] || (!LateGrant(w.db, steps[0], doc, user) && NoLateGrants(Next(w, steps[0]), steps[1..], doc, user))
  }

  /** Once an attempt for the user has cleaned up, the user has no grant of the document. */
  ghost predicate Cleaned(w: World, doc: nat, user: nat) {
    forall j | j in w.attempts && !w.attempts[j].Cleanup? && j in w.db.jobs && w.db.jobs[j].subject == user ::
      Grant(doc, user) !in w.db.private
  }

  predicate Retained(w: World, j: nat, doc: nat) {
    j in w.db.jobs && doc in w.db.jobs[j].refs && w.db.jobs[j].refs[doc] == RetainedReferenced
  }

  /** The attempt has found the document referenced and has not recorded it yet. */
  predicate Retaining(w: World, j: nat, doc: nat) {
    j in w.db.jobs && j in w.attempts && w.attempts[j].Marking? && w.attempts[j].doc == doc && !w.attempts[j].deleted
  }

  lemma OpenSubject(w: World, j: nat)
    requires Inv(w) && j in w.attempts
    ensures j in w.db.jobs && w.db.jobs[j].subject in w.db.users && w.db.users[w.db.jobs[j].subject] == Deleting
  {
    assert AttemptOk(w.db, w.db.jobs[j], w.attempts[j]) && JobOk(w.db, w.db.jobs[j]);
  }

  /** Only granting adds a private grant. */
  lemma GrantsOnlyGrow(w: World, step: Step, g: Grant)
    requires g in Next(w, step).db.private && g !in w.db.private
    ensures step == GrantPrivate(g.user, g.document)
  {
    hide Referenced, HasOpenJob, GrantedTo;
  }

  /** An attempt past its cleanup was past it before, or has just cleaned up. */
  lemma PastCleanup(w: World, step: Step, j: nat)
    requires Inv(w)
    requires var v := Next(w, step); j in v.attempts && !v.attempts[j].Cleanup? && j in v.db.jobs
    ensures j in w.attempts && j in w.db.jobs && Next(w, step).db.jobs[j].subject == w.db.jobs[j].subject
    ensures w.attempts[j].Cleanup? ==> forall g | g in Next(w, step).db.private :: g.user != w.db.jobs[j].subject
  {
    hide SharedStep, Collected, GrantsOk, JobOk, AttemptOk, OneOpenJob;
    if j in w.attempts { StepFollows(w, step, j); }
  }

  lemma StepCleaned(w: World, step: Step, doc: nat, user: nat)
    requires Inv(w) && Cleaned(w, doc, user) && !LateGrant(w.db, step, doc, user)
    ensures Cleaned(Next(w, step), doc, user)
  {
    var v := Next(w, step);
    hide Inv, Next;
    forall j | j in v.attempts && !v.attempts[j].Cleanup? && j in v.db.jobs && v.db.jobs[j].subject == user
      ensures Grant(doc, user) !in v.db.private
    {
      PastCleanup(w, step, j);
      OpenSubject(w, j);
      if Grant(doc, user) in v.db.private && Grant(doc, user) !in w.db.private { GrantsOnlyGrow(w, step, Grant(doc, user)); }
    }
  }

  /** The step that makes a document retained, or about to be, finds it held by others. */
  lemma RetainingHeld(w: World, step: Step, j: nat, doc: nat, user: nat)
    requires Inv(w) && Cleaned(w, doc, user) && !Retained(w, j, doc) && !Retaining(w, j, doc)
    requires Retained(Next(w, step), j, doc) || Retaining(Next(w, step), j, doc)
    ensures j in w.db.jobs && (w.db.jobs[j].subject == user ==> HeldByOthers(w.db, doc, user))
  {
    hide GrantsOk, JobOk, AttemptOk, OneOpenJob, HasOpenJob;
    if step.Start? || JobOf(step).None? { NewJobId(w); }
  }

  lemma {:induction false} RunRetained(w: World, steps: seq<Step>, j: nat, doc: nat, user: nat)
    requires Inv(w) && Cleaned(w, doc, user) && NoLateGrants(w, steps, doc, user)
    requires !Retained(w, j, doc) && !Retaining(w, j, doc)
    requires Retained(After(w, steps), j, doc) && After(w, steps).db.jobs[j].subject == user
    ensures EverHeld(w, steps, doc, user)
    decreases |steps|
  {
    if steps != [] {
      var v := Next(w, steps[0]);
      StepKeeps(w, steps[0]);
      StepCleaned(w, steps[0], doc, user);
      if Retained(v, j, doc) || Retaining(v, j, doc) {
        RetainingHeld(w, steps[0], j, doc, user);
        RunFollows(w, steps, j);
      } else {
        hide Inv, Next, Cleaned, HeldByOthers, LateGrant;
        RunRetained(v, steps[1..], j, doc, user);
      }
    }
  }

  /** In every run in which the deleted user is not granted the document while the account is being deleted, a document
      that the deletion retained was at some point granted to everybody, or to somebody else. */
  lemma RetainedWasHeld(steps: seq<Step>, j: nat, doc: nat)
    requires Retained(After(START, steps), j, doc)
    requires NoLateGrants(START, steps, doc, After(START, steps).db.jobs[j].subject)
    ensures EverHeld(START, steps, doc, After(START, steps).db.jobs[j].subject)
  {
    RunRetained(START, steps, j, doc, After(START, steps).db.jobs[j].subject);
  }

  /** One user at most, one document and one deletion job of the user 0. */
  function Small(users: map<nat, UserStatus>, granted: bool, state: JobState, ref: RefState, attempts: map<nat, Pc>): (w: World)
    ensures w.db.globals == map[] && w.db.private <= {Grant(1, 0)}
  {
    World(Db(users, {1}, if granted then {Grant(1, 0)} else {}, map[], map[2 := Job(0, state, map[1 := ref])], 3), attempts)
  }

  const DELETING := map[0 := Deleting]

  /** The run ends in `end`, and nobody but the user 0 has held the document 1. */
  ghost predicate Alone(w: World, steps: seq<Step>, end: World) {
    After(w, steps) == end && !EverHeld(w, steps, 1, 0)
  }

  lemma AloneBefore(w: World, step: Step, v: World, rest: seq<Step>, end: World)
    requires Next(w, step) == v && Alone(v, rest, end) && w.db.globals == map[] && w.db.private <= {Grant(1, 0)}
    ensures Alone(w, [step] + rest, end)
  {
    hide Next;
    assert ([step] + rest)[1..] == rest;
  }

  lemma Overwritten<T>(k: nat, x: T, y: T)
    ensures map[k := x][k := y] == map[k := y] && map[k := x] - {k} == map[] && map[k := x].Keys == {k}
  {
  }

  lemma LateStart()
    ensures Next(Small(DELETING, true, Pending, RefPending, map[]), Queue(2)) == Small(DELETING, true, Queued, RefPending, map[])
    ensures Next(Small(DELETING, true, Queued, RefPending, map[]), Start(2)) ==
      Small(DELETING, true, Running, RefPending, map[2 := Cleanup])
  {
    var refs := map[1 := RefPending];
    Overwritten(2, Job(0, Pending, refs), Job(0, Queued, refs));
    Overwritten(2, Job(0, Queued, refs), Job(0, Running, refs));
  }

  /** The grant lands behind the cleanup. */
  lemma LateClean()
    ensures Next(Small(DELETING, true, Running, RefPending, map[2 := Cleanup]), Clean(2)) ==
      Small(DELETING, false, Running, RefPending, map[2 := Visiting({1})])
    ensures Next(Small(DELETING, false, Running, RefPending, map[2 := Visiting({1})]), GrantPrivate(0, 1)) ==
      Small(DELETING, true, Running, RefPending, map[2 := Visiting({1})])
  {
    Overwritten(1, RefPending, RefPending);
    Overwritten(2, Cleanup, Visiting({1}));
    assert WithoutGrants(Small(DELETING, true, Running, RefPending, map[]).db, 0).private == {};
  }

  lemma LateCollect()
    ensures Next(Small(DELETING, true, Running, RefPending, map[2 := Visiting({1})]), CollectRef(2, 1)) ==
      Small(DELETING, true, Running, RefPending, map[2 := Marking(1, false, {})])
  {
    var db := Small(DELETING, true, Running, RefPending, map[]).db;
    Collecting(db, 2, 1, {1});
    assert Grant(1, 0) in db.private;
    assert Collected(db, 1) == (db, false);
    assert {1} - {1} == {};
    hide Next, Collected;
  }

  lemma LateMark()
    ensures Next(Small(DELETING, true, Running, RefPending, map[2 := Marking(1, false, {})]), Mark(2)) ==
      Small(DELETING, true, Running, RetainedReferenced, map[2 := Visiting({})])
  {
    Overwritten(1, RefPending, RetainedReferenced);
    Overwritten(2, Job(0, Running, map[1 := RefPending]), Job(0, Running, map[1 := RetainedReferenced]));
    MarkingRef(Small(DELETING, true, Running, RefPending, map[]).db, 2, 1, false, {});
    hide Next;
  }

  lemma LateFinish()
    ensures Next(Small(DELETING, true, Running, RetainedReferenced, map[2 := Visiting({})]), Finish(2)) ==
      Small(map[], false, Completed, RetainedReferenced, map[])
  {
    var refs := map[1 := RetainedReferenced];
    var db := Small(DELETING, true, Running, RetainedReferenced, map[]).db;
    Overwritten(0, Deleting, Deleting);
    Overwritten(2, Job(0, Running, refs), Job(0, Completed, refs));
    Overwritten(2, Visiting({}), Visiting({}));
    assert WithoutUser(db, 0).private == {} && WithoutUser(db, 0).users == map[] && WithoutUser(db, 0).globals == map[];
  }

  lemma LateRequest()
    ensures Next(World(Db(map[0 := Active], {1}, {Grant(1, 0)}, map[], map[], 2), map[]), Request(0, true)) ==
      Small(DELETING, true, Pending, RefPending, map[])
  {
    var db := Db(map[0 := Active], {1}, {Grant(1, 0)}, map[], map[], 2);
    Overwritten(0, Active, Deleting);
    assert Grant(1, 0) in db.private && GrantedTo(db, 0) == {1};
    var refs := map d | d in GrantedTo(db, 0) :: RefPending;
    assert refs == map[1 := RefPending];
    assert !HasOpenJob(db, 0);
    assert Requested(db, 0, true) == Db(DELETING, {1}, {Grant(1, 0)}, map[], map[2 := Job(0, Pending, refs)], 3);
  }

  lemma LateSetup()
    ensures var one := World(Db(map[0 := Active], {}, {}, map[], map[], 1), map[]);
      var two := World(Db(map[0 := Active], {1}, {}, map[], map[], 2), map[]);
      var three := World(Db(map[0 := Active], {1}, {Grant(1, 0)}, map[], map[], 2), map[]);
      Next(START, Register) == one && Next(one, Upload) == two && Next(two, GrantPrivate(0, 1)) == three
  {
  }

  lemma AloneMeans(w: World, steps: seq<Step>, end: World)
    requires Alone(w, steps, end)
    ensures After(w, steps) == end && !EverHeld(w, steps, 1, 0)
  {
  }

  lemma LateAttempt() returns (steps: seq<Step>)
    ensures Alone(Small(DELETING, true, Pending, RefPending, map[]), steps,
                  Small(map[], false, Completed, RetainedReferenced, map[]))
  {
    hide Alone;
    var end := Small(map[], false, Completed, RetainedReferenced, map[]);
    var visited := Small(DELETING, true, Running, RetainedReferenced, map[2 := Visiting({})]);
    var marking := Small(DELETING, true, Running, RefPending, map[2 := Marking(1, false, {})]);
    var granted := Small(DELETING, true, Running, RefPending, map[2 := Visiting({1})]);
    var cleaned := Small(DELETING, false, Running, RefPending, map[2 := Visiting({1})]);
    var started := Small(DELETING, true, Running, RefPending, map[2 := Cleanup]);
    var queued := Small(DELETING, true, Queued, RefPending, map[]);
    steps := [];
    assert Alone(end, steps, end) by { AloneAtEnd(end); }
    LateStart();
    LateClean();
    LateCollect();
    LateMark();
    LateFinish();
    hide Next, Small;
    AloneBefore(visited, Finish(2), end, steps, end);
    steps := [Finish(2)] + steps;
    AloneBefore(marking, Mark(2), visited, steps, end);
    steps := [Mark(2)] + steps;
    AloneBefore(granted, CollectRef(2, 1), marking, steps, end);
    steps := [CollectRef(2, 1)] + steps;
    AloneBefore(cleaned, GrantPrivate(0, 1), granted, steps, end);
    steps := [GrantPrivate(0, 1)] + steps;
    AloneBefore(started, Clean(2), cleaned, steps, end);
    steps := [Clean(2)] + steps;
    AloneBefore(queued, Start(2), started, steps, end);
    steps := [Start(2)] + steps;
    AloneBefore(Small(DELETING, true, Pending, RefPending, map[]), Queue(2), queued, steps, end);
    steps := [Queue(2)] + steps;
  }

  lemma AloneAtEnd(w: World)
    requires w.db.globals == map[] && w.db.private <= {Grant(1, 0)}
    ensures Alone(w, [], w)
  {
  }

  /** The assumption is needed: `grant_private` does not look at the user's status, so a grant that lands between the
      cleanup and the collection of a deletion retains a document nobody else ever held, and once the deletion has
      completed nothing refers to it. */
  lemma LateGrantRetains() returns (steps: seq<Step>)
    ensures var w := After(START, steps);
      && Retained(w, 2, 1) && w.db.jobs[2].state == Completed && w.db.jobs[2].subject == 0
      && !EverHeld(START, steps, 1, 0) && 1 in w.db.documents && !Referenced(w.db, 1)
  {
    hide Next, After, EverHeld, Alone;
    var one := World(Db(map[0 := Active], {}, {}, map[], map[], 1), map[]);
    var two := World(Db(map[0 := Active], {1}, {}, map[], map[], 2), map[]);
    var three := World(Db(map[0 := Active], {1}, {Grant(1, 0)}, map[], map[], 2), map[]);
    var asked, end := Small(DELETING, true, Pending, RefPending, map[]), Small(map[], false, Completed, RetainedReferenced, map[]);
    steps := LateAttempt();
    LateSetup();
    LateRequest();
    AloneBefore(three, Request(0, true), asked, steps, end);
    steps := [Request(0, true)] + steps;
    AloneBefore(two, GrantPrivate(0, 1), three, steps, end);
    steps := [GrantPrivate(0, 1)] + steps;
    AloneBefore(one, Upload, two, steps, end);
    steps := [Upload] + steps;
    AloneBefore(START, Register, one, steps, end);
    steps := [Register] + steps;
    AloneMeans(START, steps, end);
  }

  // ---------- retrying ----------

  /** However often a job's attempts failed or were killed, an undisturbed attempt completes it. */
  lemma RetryCompletes(w: World, j: nat) returns (script: seq<Step>)
    requires Inv(w) && j in w.db.jobs && j !in w.attempts
    ensures var w' := After(w, script); j in w'.db.jobs && w'.db.jobs[j].state == Completed
  {
    hide Inv, Next, After;
    if w.db.jobs[j].state == Completed {
      script := [];
      AfterNothing(w);
    } else {
      var one := Next(w, Start(j));
      StepKeeps(w, Start(j));
      var two := Next(one, Clean(j));
      StepKeeps(one, Clean(j));
      Beginning(w, j);
      var rest := VisitAll(two, j);
      script := [Start(j)] + ([Clean(j)] + rest);
      AfterFirst(w, Start(j), [Clean(j)] + rest);
      AfterFirst(one, Clean(j), rest);
    }
  }

  lemma Beginning(w: World, j: nat)
    requires j in w.db.jobs && w.db.jobs[j].state != Completed && j !in w.attempts
    ensures var w' := Next(Next(w, Start(j)), Clean(j));
      j in w'.db.jobs && j in w'.attempts && w'.attempts[j] == Visiting(w'.db.jobs[j].refs.Keys)
  {
  }

  lemma AfterNothing(w: World)
    ensures After(w, []) == w
  {
  }

  lemma AfterFirst(w: World, step: Step, rest: seq<Step>)
    ensures After(w, [step] + rest) == After(Next(w, step), rest)
  {
    assert ([step] + rest)[1..] == rest;
  }

  lemma {:induction false} VisitAll(w: World, j: nat) returns (script: seq<Step>)
    requires Inv(w) && j in w.db.jobs && j in w.attempts && w.attempts[j].Visiting? && w.attempts[j].left <= w.db.jobs[j].refs.Keys
    ensures var w' := After(w, script); j in w'.db.jobs && w'.db.jobs[j].state == Completed
    decreases |w.attempts[j].left|
  {
    hide Inv;
    var left := w.attempts[j].left;
    if left == {} {
      script := [Finish(j)];
      AfterFirst(w, Finish(j), []);
    } else {
      var doc :| doc in left;
      assert |left - {doc}| < |left|;
      if Done(w.db.jobs[j].refs[doc]) {
        var one := Next(w, Skip(j, doc));
        StepKeeps(w, Skip(j, doc));
        var rest := VisitAll(one, j);
        script := [Skip(j, doc)] + rest;
        AfterFirst(w, Skip(j, doc), rest);
      } else {
        var one := Next(w, CollectRef(j, doc));
        StepKeeps(w, CollectRef(j, doc));
        var two := Next(one, Mark(j));
        StepKeeps(one, Mark(j));
        var rest := VisitAll(two, j);
        script := [CollectRef(j, doc)] + ([Mark(j)] + rest);
        AfterFirst(w, CollectRef(j, doc), [Mark(j)] + rest);
        AfterFirst(one, Mark(j), rest);
      }
    }
  }
}
