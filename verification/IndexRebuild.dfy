/** The batched rebuild of one artifact's index as it runs (app/local_compute/indexing.py:219-623,
    926-965): keyset pages, reused and generated vectors, a transaction per batch, cancellation
    checkpoints, and the restore on failure.

    The embedder and the cancel flag are outside the artifact: `encode(n, batch)` is what the n-th
    encoder call returns (None for an exception) and `cancelled(n)` what the n-th checkpoint reads. */
module IndexRebuild {
  import opened Wrappers
  import opened LocalJobs
  import opened Ordering
  import opened ArtifactIndex

  type Encoder = (nat, seq<(ChunkId, string)>) -> Option<seq<Vector>>

  datatype Counts = Counts(total: nat, reused: nat, generated: nat)

  // ---------- specification of one run ----------

  /** The encoder maps each text to the same vector, whatever batch it comes in. */
  ghost predicate Pointwise(encode: Encoder, f: string -> Vector) {
    forall n: nat, batch: seq<(ChunkId, string)> ::
      encode(n, batch) == Some(seq(|batch|, i requires 0 <= i < |batch| => f(batch[i].1)))
  }

  ghost predicate Answers(vectors: seq<Vector>, inputs: seq<(ChunkId, string)>, f: string -> Vector) {
    |vectors| == |inputs| && forall i | 0 <= i < |inputs| :: vectors[i] == f(inputs[i].1)
  }

  ghost predicate Agrees(reusable: map<string, Vector>, f: string -> Vector) {
    forall text | text in reusable :: reusable[text] == f(text)
  }

  function ReusedCount(rows: seq<Chunk>, reusable: map<string, Vector>): nat {
    if rows == [] then 0
    else ReusedCount(rows[..|rows| - 1], reusable) + if rows[|rows| - 1].embeddingText in reusable then 1 else 0
  }

  /** Every row of the queue carries the vector `f` gives its text. */
  ghost predicate Embedded(table: Embeddings, rows: seq<Chunk>, model: string, f: string -> Vector) {
    forall i | 0 <= i < |rows| :: CarriesRow(table, rows[i], model, f)
  }

  predicate CarriesRow(table: Embeddings, x: Chunk, model: string, f: string -> Vector) {
    x.id in table && table[x.id] == IndexRow(model, f(x.embeddingText))
  }

  lemma {:induction false} ReusedCountConcat(a: seq<Chunk>, b: seq<Chunk>, reusable: map<string, Vector>)
    ensures ReusedCount(a + b, reusable) == ReusedCount(a, reusable) + ReusedCount(b, reusable)
    decreases |b|
  {
    if b == [] {
      assert a + b == a;
    } else {
      var n := |b| - 1;
      ReusedCountConcat(a, b[..n], reusable);
      assert (a + b)[..|a + b| - 1] == a + b[..n];
    }
  }

  /** The rows that need the encoder, and what it is given for them. */
  function Missing(rows: seq<Chunk>, reusable: map<string, Vector>): seq<Chunk> {
    if rows == [] then
      []
    else
      var n := |rows| - 1;
      Missing(rows[..n], reusable) + if rows[n].embeddingText in reusable then [] else [rows[n]]
  }

  function Inputs(rows: seq<Chunk>): (r: seq<(ChunkId, string)>)
    ensures |r| == |rows|
    ensures forall i | 0 <= i < |rows| :: r[i] == (rows[i].id, rows[i].embeddingText)
  {
    seq(|rows|, i requires 0 <= i < |rows| => (rows[i].id, rows[i].embeddingText))
  }

  lemma {:induction false} MissingIn(rows: seq<Chunk>, reusable: map<string, Vector>)
    ensures forall r :: r in Missing(rows, reusable) <==> r in rows && r.embeddingText !in reusable
  {
    if rows != [] {
      var n := |rows| - 1;
      MissingIn(rows[..n], reusable);
      assert rows == rows[..n] + [rows[n]];
    }
  }

  lemma {:induction false} MissingDistinct(rows: seq<Chunk>, reusable: map<string, Vector>)
    requires DistinctRowIds(rows)
    ensures DistinctRowIds(Missing(rows, reusable))
  {
    if rows != [] {
      var n := |rows| - 1;
      var before := Missing(rows[..n], reusable);
      MissingDistinct(rows[..n], reusable);
      MissingIn(rows[..n], reusable);
      forall i | 0 <= i < |before| ensures before[i].id != rows[n].id {
        assert before[i] in rows[..n];
      }
    }
  }

  lemma MissingRows(rows: seq<Chunk>, reusable: map<string, Vector>)
    requires DistinctRowIds(rows)
    ensures DistinctRowIds(Missing(rows, reusable))
    ensures forall r :: r in Missing(rows, reusable) <==> r in rows && r.embeddingText !in reusable
    ensures forall i | 0 <= i < |rows| && rows[i].embeddingText in reusable :: rows[i].id !in Ids(Missing(rows, reusable))
  {
    MissingDistinct(rows, reusable);
    MissingIn(rows, reusable);
    hide Missing;
    forall i, r | 0 <= i < |rows| && rows[i].embeddingText in reusable && r in Missing(rows, reusable)
      ensures rows[i].id != r.id
    {
      var j :| 0 <= j < |rows| && rows[j] == r;
      assert i != j;
    }
  }

  predicate IsVectorOf(v: Vector, x: Chunk, f: string -> Vector) {
    v == f(x.embeddingText)
  }

  ghost predicate CarriesVectors(byId: map<ChunkId, Vector>, rows: seq<Chunk>, f: string -> Vector) {
    forall i | 0 <= i < |rows| :: rows[i].id in byId && IsVectorOf(byId[rows[i].id], rows[i], f)
  }

  ghost predicate Covers(byId: map<ChunkId, Vector>, rows: seq<Chunk>) {
    forall i | 0 <= i < |rows| :: rows[i].id in byId
  }

  function VectorsOf(byId: map<ChunkId, Vector>, rows: seq<Chunk>): (v: seq<Vector>)
    requires Covers(byId, rows)
    ensures |v| == |rows|
    ensures forall i | 0 <= i < |rows| :: v[i] == byId[rows[i].id]
  {
    seq(|rows|, i requires 0 <= i < |rows| => byId[rows[i].id])
  }

  lemma IdsDisjoint(done: seq<Chunk>, rows: seq<Chunk>)
    requires DistinctRowIds(done + rows)
    ensures forall i | 0 <= i < |done| :: done[i].id !in Ids(rows)
  {
    var all := done + rows;
    forall i, r | 0 <= i < |done| && r in rows ensures r.id != done[i].id {
      var j :| 0 <= j < |rows| && rows[j] == r;
      assert all[i] == done[i] && all[|done| + j] == r;
    }
  }

  /** The batch step extends what is embedded. */
  lemma EmbeddedExtends(
    file: ArtifactFile, done: seq<Chunk>, rows: seq<Chunk>, vectors: seq<Vector>, model: string, f: string -> Vector)
    requires DistinctRowIds(done + rows) && |vectors| == |rows|
    requires Embedded(file.embeddings, done, model, f)
    requires forall i | 0 <= i < |rows| :: IsVectorOf(vectors[i], rows[i], f)
    ensures Embedded(Appended(file, rows, vectors, model).embeddings, done + rows, model, f)
  {
    var all := done + rows;
    assert DistinctRowIds(rows) by {
      assert forall i | 0 <= i < |rows| :: all[|done| + i] == rows[i];
    }
    IdsDisjoint(done, rows);
    WithEmbeddingsRows(file.embeddings, rows, vectors, model);
    hide WithEmbeddings, DistinctRowIds, Ids, LexicalOf;
    var after := WithEmbeddings(file.embeddings, rows, vectors, model);
    forall i | 0 <= i < |all|
      ensures CarriesRow(after, all[i], model, f)
    {
      if i < |done| {
        assert CarriesRow(file.embeddings, done[i], model, f);
        assert after[done[i].id] == file.embeddings[done[i].id];
      } else {
        var j := i - |done|;
        assert all[i] == rows[j] && IsVectorOf(vectors[j], rows[j], f);
        assert after[rows[j].id] == IndexRow(model, vectors[j]);
      }
    }
  }

  lemma CompleteKeys(one: ArtifactFile, two: ArtifactFile)
    requires one.chunks == two.chunks && Complete(one) && Complete(two)
    ensures one.embeddings.Keys == two.embeddings.Keys
    ensures forall id | id in one.embeddings :: exists k :: k in one.chunks && one.chunks[k].id == id
    ensures forall e :: e in one.lexical <==> e in two.lexical
  {
  }

  /** The index is a function of the chunks, the model and the embedder: neither the batch size nor what
      could be reused leaves a trace in the embedding table. */
  lemma RebuiltTableUnique(one: ArtifactFile, two: ArtifactFile, model: string, f: string -> Vector)
    requires one.chunks == two.chunks && Complete(one) && Complete(two)
    requires forall k | k in one.chunks :: CarriesRow(one.embeddings, one.chunks[k], model, f)
    requires forall k | k in two.chunks :: CarriesRow(two.embeddings, two.chunks[k], model, f)
    ensures one.embeddings == two.embeddings
    ensures forall e :: e in one.lexical <==> e in two.lexical
  {
    hide Complete, CarriesRow;
    CompleteKeys(one, two);
    SameTables(one.chunks, one.embeddings, two.embeddings, model, f);
  }

  lemma SameTables(chunks: Chunks, a: Embeddings, b: Embeddings, model: string, f: string -> Vector)
    requires a.Keys == b.Keys
    requires forall id | id in a :: exists k :: k in chunks && chunks[k].id == id
    requires forall k | k in chunks :: CarriesRow(a, chunks[k], model, f)
    requires forall k | k in chunks :: CarriesRow(b, chunks[k], model, f)
    ensures a == b
  {
    forall id | id in a ensures a[id] == b[id] {
      var k :| k in chunks && chunks[k].id == id;
      SameRow(a, b, chunks[k], model, f);
    }
    MapsEqual(a, b);
  }

  lemma SameRow(a: Embeddings, b: Embeddings, x: Chunk, model: string, f: string -> Vector)
    requires CarriesRow(a, x, model, f) && CarriesRow(b, x, model, f)
    ensures a[x.id] == b[x.id]
  {
  }

  lemma MapsEqual(a: Embeddings, b: Embeddings)
    requires a.Keys == b.Keys && forall id | id in a :: a[id] == b[id]
    ensures a == b
  {
  }

  // ---------- the artifact database ----------

  /** What one call is given from outside the artifact. */
  datatype Config = Config(
    model: string, encode: Encoder, reusable: map<string, Vector>, batchSize: int, cancelled: nat -> bool)

  ghost predicate Lawful(c: Config, f: string -> Vector) {
    Pointwise(c.encode, f) && Agrees(c.reusable, f)
  }

  /** Nothing outside the artifact goes wrong. */
  ghost predicate Calm(chunks: Chunks, c: Config, f: string -> Vector) {
    && (forall n :: !c.cancelled(n))
    && Lawful(c, f)
    && FitsAll(chunks, f)
  }

  /** What a successful rebuild leaves behind. */
  ghost predicate Finished(file: ArtifactFile, counts: Counts, c: Config, f: string -> Vector) {
    && Complete(file)
    && counts.total == |file.chunks| == counts.reused + counts.generated
    && counts.reused == ReusedCount(Queue(file.chunks), c.reusable)
    && (Lawful(c, f) ==> forall k | k in file.chunks :: CarriesRow(file.embeddings, file.chunks[k], c.model, f))
  }

  /** Two successful rebuilds of the same chunks by the same embedder agree, whatever the batch sizes,
      however many vectors each could reuse, and wherever those came from. */
  lemma ReuseIsInvisible(
    one: ArtifactFile, two: ArtifactFile, c: Config, d: Config, m: Counts, n: Counts, f: string -> Vector)
    requires one.chunks == two.chunks && c.model == d.model
    requires Finished(one, m, c, f) && Lawful(c, f) && Finished(two, n, d, f) && Lawful(d, f)
    ensures one.embeddings == two.embeddings
    ensures forall e :: e in one.lexical <==> e in two.lexical
    ensures m.total == n.total
  {
    RebuiltTableUnique(one, two, c.model, f);
  }

  // ---------- reusable vectors ----------

  /** The join of chunks and embeddings that `_reusable_vectors` reads. */
  predicate Joined(file: ArtifactFile, k: int) {
    && k in file.chunks
    && file.chunks[k].id in file.embeddings
    && var row := file.embeddings[file.chunks[k].id];
       row.dimension == EMBEDDING_DIMENSION && row.normalized == 1 && row.version == INDEX_VERSION
  }

  function JoinedVector(file: ArtifactFile, k: int): Vector
    requires Joined(file, k)
  {
    file.embeddings[file.chunks[k].id].vector
  }

  ghost predicate Source(file: ArtifactFile, k: int, text: string, v: Vector) {
    Joined(file, k) && file.chunks[k].embeddingText == text && JoinedVector(file, k) == v && ValidVector(v)
  }

  /** What the returned dictionary is: every joined text, each with a vector it is stored under. */
  ghost predicate Reuses(file: ArtifactFile, reusable: map<string, Vector>) {
    && (forall k | Joined(file, k) :: file.chunks[k].embeddingText in reusable)
    && (forall text | text in reusable :: exists k :: Source(file, k, text, reusable[text]))
  }

  /** Vectors taken from an index that `f` produced are the vectors `f` would produce again. */
  lemma ReusedAgree(file: ArtifactFile, reusable: map<string, Vector>, model: string, f: string -> Vector)
    requires Reuses(file, reusable)
    requires forall k | k in file.chunks :: CarriesRow(file.embeddings, file.chunks[k], model, f)
    ensures Agrees(reusable, f)
  {
    forall text | text in reusable ensures reusable[text] == f(text) {
      var k :| Source(file, k, text, reusable[text]);
      assert CarriesRow(file.embeddings, file.chunks[k], model, f);
    }
  }

  // ---------- the loop's invariant, one lemma per use ----------

  ghost predicate RebuiltUpTo(file: ArtifactFile, n: nat, last: int, c: Config, f: string -> Vector) {
    && PrefixIndexed(file, n, last, c.model)
    && file.mark == Rebuilding
    && (Lawful(c, f) ==> Embedded(file.embeddings, Queue(file.chunks)[..n], c.model, f))
  }

  predicate Fits(x: Chunk, f: string -> Vector) {
    ValidVector(f(x.embeddingText))
  }

  ghost predicate FitsAll(chunks: Chunks, f: string -> Vector) {
    forall k | k in chunks :: Fits(chunks[k], f)
  }

  ghost predicate CountsReuse(chunks: Chunks, n: nat, reused: nat, reusable: map<string, Vector>) {
    n <= |Queue(chunks)| && reused == ReusedCount(Queue(chunks)[..n], reusable)
  }

  lemma RebuildStarts(file: ArtifactFile, c: Config, f: string -> Vector)
    ensures RebuiltUpTo(Cleared(file), 0, -1, c, f)
    ensures CountsReuse(file.chunks, 0, 0, c.reusable)
  {
    ClearedStarts(file, c.model);
  }

  /** A page is empty exactly when the reachable chunks are used up, or the limit is zero. */
  lemma NextPage(file: ArtifactFile, n: nat, last: int, c: Config, f: string -> Vector)
    requires RebuiltUpTo(file, n, last, c, f)
    ensures var page := Page(file.chunks, last, c.batchSize);
      && n + |page| <= |Order(file.chunks)|
      && (page == [] <==> c.batchSize == 0 || n == |Order(file.chunks)|)
      && Rows(file.chunks, page) == Queue(file.chunks)[n..n + |page|]
  {
    PageIsNextSlice(file.chunks, n, last, c.batchSize);
    PageRows(file.chunks, n, last, c.batchSize);
  }

  lemma PageRowsDistinct(file: ArtifactFile, n: nat, last: int, c: Config, f: string -> Vector)
    requires DistinctIds(file.chunks) && RebuiltUpTo(file, n, last, c, f)
    ensures DistinctRowIds(Rows(file.chunks, Page(file.chunks, last, c.batchSize)))
  {
    NextPage(file, n, last, c, f);
    QueueIdsDistinct(file.chunks);
  }

  lemma FitsAt(chunks: Chunks, k: int, f: string -> Vector)
    requires FitsAll(chunks, f) && k in chunks
    ensures Fits(chunks[k], f)
  {
  }

  lemma FitsPage(chunks: Chunks, page: seq<int>, byId: map<ChunkId, Vector>, f: string -> Vector)
    requires Stored(chunks, page) && FitsAll(chunks, f)
    requires Covers(byId, Rows(chunks, page)) && CarriesVectors(byId, Rows(chunks, page), f)
    ensures forall i | 0 <= i < |page| :: ValidVector(byId[Rows(chunks, page)[i].id])
  {
    var rows := Rows(chunks, page);
    forall i | 0 <= i < |page| ensures ValidVector(byId[rows[i].id]) {
      FitsAt(chunks, page[i], f);
      assert IsVectorOf(byId[rows[i].id], rows[i], f);
    }
  }

  lemma BatchAdvances(
    file: ArtifactFile, n: nat, last: int, c: Config, page: seq<int>, rows: seq<Chunk>, byId: map<ChunkId, Vector>,
    f: string -> Vector)
    requires DistinctIds(file.chunks) && RebuiltUpTo(file, n, last, c, f)
    requires page == Page(file.chunks, last, c.batchSize) && rows == Rows(file.chunks, page) && page != []
    requires Covers(byId, rows) && forall i | 0 <= i < |rows| :: ValidVector(byId[rows[i].id])
    requires Lawful(c, f) ==> CarriesVectors(byId, rows, f)
    ensures RebuiltUpTo(Appended(file, rows, VectorsOf(byId, rows), c.model), n + |page|, page[|page| - 1], c, f)
  {
    hide PrefixIndexed, Embedded, Page, Order, DistinctIds, Queue, Lawful, CarriesVectors;
    NextPage(file, n, last, c, f);
    AppendAdvances(file, n, last, c.batchSize, VectorsOf(byId, rows), c.model);
    QueueIdsDistinct(file.chunks);
    if Lawful(c, f) {
      EmbedsNext(file, Queue(file.chunks), n, rows, byId, c.model, f);
    }
  }

  lemma EmbedsNext(
    file: ArtifactFile, queue: seq<Chunk>, n: nat, rows: seq<Chunk>, byId: map<ChunkId, Vector>, model: string,
    f: string -> Vector)
    requires DistinctRowIds(queue) && n + |rows| <= |queue| && rows == queue[n..n + |rows|]
    requires Embedded(file.embeddings, queue[..n], model, f)
    requires Covers(byId, rows) && CarriesVectors(byId, rows, f)
    ensures Embedded(Appended(file, rows, VectorsOf(byId, rows), model).embeddings, queue[..n + |rows|], model, f)
  {
    assert queue[..n + |rows|] == queue[..n] + rows;
    EmbeddedExtends(file, queue[..n], rows, VectorsOf(byId, rows), model, f);
  }

  lemma CountsReuseStep(chunks: Chunks, n: nat, page: seq<int>, reused: nat, reusable: map<string, Vector>)
    requires CountsReuse(chunks, n, reused, reusable) && Stored(chunks, page)
    requires n + |page| <= |Queue(chunks)| && Rows(chunks, page) == Queue(chunks)[n..n + |page|]
    ensures ReusedCount(Rows(chunks, page), reusable) <= |page|
    ensures CountsReuse(chunks, n + |page|, reused + ReusedCount(Rows(chunks, page), reusable), reusable)
  {
    var queue, rows := Queue(chunks), Rows(chunks, page);
    assert queue[..n + |page|] == queue[..n] + rows;
    ReusedCountConcat(queue[..n], rows, reusable);
    ReusedAtMost(rows, reusable);
  }

  lemma {:induction false} ReusedAtMost(rows: seq<Chunk>, reusable: map<string, Vector>)
    ensures ReusedCount(rows, reusable) <= |rows|
  {
    if rows != [] { ReusedAtMost(rows[..|rows| - 1], reusable); }
  }

  lemma RebuildFinishes(file: ArtifactFile, last: int, c: Config, f: string -> Vector, counts: Counts)
    requires DistinctIds(file.chunks) && RebuiltUpTo(file, |file.chunks|, last, c, f)
    requires counts.total == |file.chunks| == counts.reused + counts.generated
    requires CountsReuse(file.chunks, |file.chunks|, counts.reused, c.reusable)
    ensures Finished(file.(mark := Mark.IndexReady), counts, c, f) && Validates(file, |file.chunks|, c.model)
    ensures |Order(file.chunks)| == |file.chunks|
  {
    hide PrefixIndexed, Complete, Validates, Order, Queue, ReusedCount, Embedded, CarriesRow, DistinctIds, Lawful, Stored,
      Increasing;
    var queue := Queue(file.chunks);
    OrderCovers(file.chunks);
    assert queue[..|file.chunks|] == queue;
    FullPrefixIsComplete(file, last, c.model);
    CompleteIgnoresMark(file);
    if Lawful(c, f) { AllEmbedded(file.embeddings, file.chunks, c.model, f); }
  }

  lemma AllEmbedded(table: Embeddings, chunks: Chunks, model: string, f: string -> Vector)
    requires Embedded(table, Queue(chunks), model, f) && |Order(chunks)| == |chunks|
    ensures forall k | k in chunks :: CarriesRow(table, chunks[k], model, f)
  {
    hide Order, Queue, CarriesRow;
    QueueMembers(chunks);
  }

  lemma CompleteIgnoresMark(file: ArtifactFile)
    requires Complete(file)
    ensures Complete(file.(mark := Mark.IndexReady))
  {
  }

  // ---------- gathering the vectors of one page ----------

  ghost predicate TakesReusable(byId: map<ChunkId, Vector>, rows: seq<Chunk>, reusable: map<string, Vector>) {
    forall i | 0 <= i < |rows| && rows[i].embeddingText in reusable ::
      rows[i].id in byId && byId[rows[i].id] == reusable[rows[i].embeddingText]
  }

  ghost predicate Zipped(
    base: map<ChunkId, Vector>, byId: map<ChunkId, Vector>, missing: seq<Chunk>, vectors: seq<Vector>)
    requires |vectors| == |missing|
  {
    && (forall j | 0 <= j < |missing| :: missing[j].id in byId && byId[missing[j].id] == vectors[j])
    && (forall id | id in base && id !in Ids(missing) :: id in byId && byId[id] == base[id])
  }

  lemma GatheredRows(
    base: map<ChunkId, Vector>, byId: map<ChunkId, Vector>, rows: seq<Chunk>, missing: seq<Chunk>,
    vectors: seq<Vector>, reusable: map<string, Vector>)
    requires DistinctRowIds(rows) && missing == Missing(rows, reusable) && |vectors| == |missing|
    requires TakesReusable(base, rows, reusable) && Zipped(base, byId, missing, vectors)
    ensures Covers(byId, rows) && TakesReusable(byId, rows, reusable)
  {
    MissingRows(rows, reusable);
    forall j | 0 <= j < |rows|
      ensures rows[j].id in byId
      ensures rows[j].embeddingText in reusable ==> byId[rows[j].id] == reusable[rows[j].embeddingText]
    {
      if rows[j].embeddingText !in reusable {
        var e :| 0 <= e < |missing| && missing[e] == rows[j];
        assert missing[e].id in byId;
      }
    }
  }

  lemma GatheredLawful(
    base: map<ChunkId, Vector>, byId: map<ChunkId, Vector>, rows: seq<Chunk>, missing: seq<Chunk>,
    vectors: seq<Vector>, reusable: map<string, Vector>, f: string -> Vector)
    requires DistinctRowIds(rows) && missing == Missing(rows, reusable) && |vectors| == |missing|
    requires Covers(byId, rows) && TakesReusable(byId, rows, reusable) && Zipped(base, byId, missing, vectors)
    requires Agrees(reusable, f) && Answers(vectors, Inputs(missing), f)
    ensures CarriesVectors(byId, rows, f)
  {
    MissingRows(rows, reusable);
    forall j | 0 <= j < |rows| ensures IsVectorOf(byId[rows[j].id], rows[j], f) {
      if rows[j].embeddingText !in reusable {
        var e :| 0 <= e < |missing| && missing[e] == rows[j];
        assert byId[missing[e].id] == vectors[e] && Inputs(missing)[e].1 == rows[j].embeddingText;
      }
    }
  }

  lemma LawfulReuse(c: Config, f: string -> Vector)
    requires Lawful(c, f)
    ensures Agrees(c.reusable, f)
  {
  }

  /** What is left to take of an ascending list of keys. */
  ghost predicate Remaining(rest: set<int>, keys: seq<int>, taken: nat)
    requires taken <= |keys|
  {
    forall x :: x in rest <==> exists i :: taken <= i < |keys| && keys[i] == x
  }

  lemma StillToTake(keys: seq<int>, taken: nat)
    requires taken == 0
    ensures forall x :: x in keys <==> exists i :: taken <= i < |keys| && keys[i] == x
  {
  }

  lemma TakeLeast(rest: set<int>, keys: seq<int>, taken: nat)
    requires rest != {} && Increasing(keys) && taken <= |keys| && Remaining(rest, keys, taken)
    ensures taken < |keys| && keys[taken] == Least(rest) && Remaining(rest - {Least(rest)}, keys, taken + 1)
    ensures keys[..taken] + [Least(rest)] == keys[..taken + 1]
  {
    var m := Least(rest);
    var i :| taken <= i < |keys| && keys[i] == m;
    assert keys[taken] in rest;
    assert i == taken;
  }

  lemma PageIs(chunks: Chunks, last: int, limit: int, rest: set<int>, taken: nat)
    requires var keys := Ascending(Above(chunks, last)); taken <= |keys| && Remaining(rest, keys, taken)
    requires rest == {} || taken == limit
    requires limit >= 0 ==> taken <= limit
    ensures var keys := Ascending(Above(chunks, last)); keys[..taken] == Page(chunks, last, limit)
  {
    var keys := Ascending(Above(chunks, last));
    if taken < |keys| { assert keys[taken] in rest; }
  }


  class ArtifactDatabase {
    /** The tables of artifact.sqlite3. */
    var file: ArtifactFile

    constructor (directory: DocId, chunks: Chunks)
      ensures file == ArtifactFile(directory, chunks, map[], [], Unmarked)
    {
      file := ArtifactFile(directory, chunks, map[], [], Unmarked);
    }

    method InitializeIndexTables()
      modifies this
      ensures file == Cleared(old(file))
    {
      file := file.(embeddings := map[], lexical := []);
      file := file.(mark := Rebuilding);
    }

    /** SELECT ... WHERE chunk_index > last ORDER BY chunk_index LIMIT limit. */
    method SelectPage(last: int, limit: int) returns (page: seq<int>)
      ensures page == Page(file.chunks, last, limit)
    {
      var rest := Above(file.chunks, last);
      ghost var keys := Ascending(rest);
      page := [];
      StillToTake(keys, 0);
      hide Page;
      while rest != {} && |page| != limit
        invariant |page| <= |keys| && page == keys[..|page|]
        invariant Remaining(rest, keys, |page|)
        invariant limit >= 0 ==> |page| <= limit
        decreases rest
      {
        TakeLeast(rest, keys, |page|);
        page := page + [Least(rest)];
        rest := rest - {Least(rest)};
      }
      PageIs(file.chunks, last, limit, rest, |page|);
    }

    /** `setdefault` over the joined rows, in whatever order they come. */
    method JoinedVectors() returns (r: Result<map<string, Vector>, Code>)
      ensures r.Ok? ==> Reuses(file, r.value)
      ensures r.Err? <==> exists k :: Joined(file, k) && !ValidVector(JoinedVector(file, k))
    {
      var rest := set k | k in file.chunks && Joined(file, k);
      var reusable: map<string, Vector> := map[];
      while rest != {}
        invariant forall k :: k in rest ==> Joined(file, k)
        invariant forall k | Joined(file, k) && k !in rest ::
          file.chunks[k].embeddingText in reusable && ValidVector(JoinedVector(file, k))
        invariant forall text | text in reusable :: exists k :: Source(file, k, text, reusable[text])
        decreases rest
      {
        var k := Least(rest);
        var vector := JoinedVector(file, k);
        if !ValidVector(vector) {
          return Err(PreparationFailed);
        }
        var text := file.chunks[k].embeddingText;
        if text !in reusable {
          assert Source(file, k, text, vector);
          reusable := reusable[text := vector];
        }
        rest := rest - {k};
      }
      r := Ok(reusable);
    }

    /** No artifact asked for gives nothing to reuse; an artifact whose file is missing (null) is an error. */
    static method ReusableVectors(asked: bool, source: ArtifactDatabase?) returns (r: Result<map<string, Vector>, Code>)
      ensures !asked ==> r == Ok(map[])
      ensures asked && source == null ==> r == Err(CapabilityUnavailable)
      ensures asked && source != null ==>
        && (r.Ok? ==> Reuses(source.file, r.value))
        && (r.Err? <==> exists k :: Joined(source.file, k) && !ValidVector(JoinedVector(source.file, k)))
    {
      if !asked {
        return Ok(map[]);
      }
      if source == null {
        return Err(CapabilityUnavailable);
      }
      r := source.JoinedVectors();
    }

    /** One encoder call, with the exception and the size mismatch turned into an error. */
    static method Encode(c: Config, call: nat, inputs: seq<(ChunkId, string)>, ghost f: string -> Vector)
      returns (r: Result<seq<Vector>, Code>)
      ensures r.Ok? ==> |r.value| == |inputs|
      ensures Lawful(c, f) ==> r.Ok? && Answers(r.value, inputs, f)
    {
      var vectors := c.encode(call, inputs);
      if vectors == None || |vectors.value| != |inputs| {
        return Err(PreparationFailed);
      }
      r := Ok(vectors.value);
    }

    /** Which rows of a page already have a vector for their exact input text. */
    static method SplitReusable(rows: seq<Chunk>, reusable: map<string, Vector>)
      returns (byId: map<ChunkId, Vector>, toEmbed: seq<(ChunkId, string)>)
      requires DistinctRowIds(rows)
      ensures toEmbed == Inputs(Missing(rows, reusable))
      ensures |toEmbed| == |rows| - ReusedCount(rows, reusable)
      ensures TakesReusable(byId, rows, reusable)
    {
      byId, toEmbed := map[], [];
      var i := 0;
      while i < |rows|
        invariant 0 <= i <= |rows|
        invariant toEmbed == Inputs(Missing(rows[..i], reusable))
        invariant |toEmbed| == i - ReusedCount(rows[..i], reusable)
        invariant TakesReusable(byId, rows[..i], reusable)
      {
        assert rows[..i + 1][..i] == rows[..i];
        var row := rows[i];
        if row.embeddingText in reusable {
          byId := byId[row.id := reusable[row.embeddingText]];
        } else {
          toEmbed := toEmbed + [(row.id, row.embeddingText)];
        }
        i := i + 1;
      }
      assert rows[..i] == rows;
    }

    /** Reused vectors first, one encoder call for the others. */
    static method GatherVectors(c: Config, rows: seq<Chunk>, call: nat, ghost f: string -> Vector)
      returns (r: Result<map<ChunkId, Vector>, Code>, generated: nat)
      requires DistinctRowIds(rows)
      ensures generated == |rows| - ReusedCount(rows, c.reusable)
      ensures r.Ok? ==> Covers(r.value, rows) && TakesReusable(r.value, rows, c.reusable)
      ensures Lawful(c, f) ==> r.Ok? && CarriesVectors(r.value, rows, f)
    {
      hide Lawful, TakesReusable, Zipped;
      var base, toEmbed := SplitReusable(rows, c.reusable);
      ghost var missing := Missing(rows, c.reusable);
      MissingRows(rows, c.reusable);
      generated := |toEmbed|;
      var vectors: seq<Vector> := [];
      if toEmbed != [] {
        var encoded := Encode(c, call, toEmbed, f);
        if encoded.Err? {
          return Err(encoded.error), generated;
        }
        vectors := encoded.value;
      }
      var byId := ZipVectors(base, toEmbed, vectors, missing);
      GatheredRows(base, byId, rows, missing, vectors, c.reusable);
      if Lawful(c, f) {
        LawfulReuse(c, f);
        assert Answers(vectors, toEmbed, f);
        GatheredLawful(base, byId, rows, missing, vectors, c.reusable, f);
      }
      r := Ok(byId);
    }

    /** `vectors_by_chunk_id.update(zip(...))`. */
    static method ZipVectors(
      base: map<ChunkId, Vector>, inputs: seq<(ChunkId, string)>, vectors: seq<Vector>, ghost missing: seq<Chunk>)
      returns (byId: map<ChunkId, Vector>)
      requires DistinctRowIds(missing) && inputs == Inputs(missing) && |vectors| == |inputs|
      ensures Zipped(base, byId, missing, vectors)
    {
      byId := base;
      var i := 0;
      while i < |inputs|
        invariant 0 <= i <= |inputs|
        invariant forall j | 0 <= j < i :: missing[j].id in byId && byId[missing[j].id] == vectors[j]
        invariant forall id | id in base && id !in Ids(missing) :: id in byId && byId[id] == base[id]
      {
        assert missing[i] in missing;
        byId := byId[inputs[i].0 := vectors[i]];
        i := i + 1;
      }
    }

    /** One BEGIN IMMEDIATE ... commit, rolled back when a vector does not validate. */
    method InsertPage(rows: seq<Chunk>, byId: map<ChunkId, Vector>, model: string) returns (ok: bool)
      requires Covers(byId, rows)
      modifies this
      ensures ok <==> forall i | 0 <= i < |rows| :: ValidVector(byId[rows[i].id])
      ensures file == if ok then Appended(old(file), rows, VectorsOf(byId, rows), model) else old(file)
    {
      var saved := file;
      ghost var vectors := VectorsOf(byId, rows);
      var ftsRows: Lexical := [];
      var i := 0;
      while i < |rows|
        invariant 0 <= i <= |rows|
        invariant forall j | 0 <= j < i :: ValidVector(byId[rows[j].id])
        invariant file == saved.(embeddings := WithEmbeddings(saved.embeddings, rows[..i], vectors[..i], model))
        invariant ftsRows == LexicalOf(rows[..i])
      {
        var vector := byId[rows[i].id];
        if !ValidVector(vector) {
          file := saved;
          return false;
        }
        assert rows[..i + 1][..i] == rows[..i] && vectors[..i + 1][..i] == vectors[..i];
        file := file.(embeddings := file.embeddings[rows[i].id := IndexRow(model, vector)]);
        ftsRows := ftsRows + [LexicalRow(rows[i])];
        i := i + 1;
      }
      assert rows[..i] == rows && vectors[..i] == vectors;
      file := file.(lexical := file.lexical + ftsRows);
      ok := true;
    }

    /** One turn of the loop: page, vectors, checkpoint, transaction. */
    method IndexBatch(c: Config, call: nat, cancelled: bool, processed: nat, last: int, ghost f: string -> Vector)
      returns (r: Result<seq<int>, Code>, generated: nat)
      requires DistinctIds(file.chunks) && RebuiltUpTo(file, processed, last, c, f)
      modifies this
      ensures file.chunks == old(file.chunks) && file.directory == old(file.directory) && file.mark == old(file.mark)
      ensures r.Ok? ==> r.value == Page(file.chunks, last, c.batchSize)
      ensures r.Ok? && r.value == [] ==> file == old(file) && generated == 0
      ensures r.Ok? && r.value != [] ==>
        && RebuiltUpTo(file, processed + |r.value|, r.value[|r.value| - 1], c, f)
        && generated == |r.value| - ReusedCount(Rows(file.chunks, r.value), c.reusable)
      ensures !cancelled && Lawful(c, f) && FitsAll(file.chunks, f) ==> r.Ok?
    {
      hide RebuiltUpTo, Lawful, FitsAll;
      var page := SelectPage(last, c.batchSize);
      if page == [] {
        return Ok(page), 0;
      }
      var rows := Rows(file.chunks, page);
      PageRowsDistinct(file, processed, last, c, f);
      var gathered: Result<map<ChunkId, Vector>, Code>;
      gathered, generated := GatherVectors(c, rows, call, f);
      if gathered.Err? {
        return Err(gathered.error), generated;
      }
      if cancelled {
        return Err(JobCancelled), generated;
      }
      if Lawful(c, f) && FitsAll(file.chunks, f) {
        FitsPage(file.chunks, page, gathered.value, f);
      }
      var ok := InsertPage(rows, gathered.value, c.model);
      if !ok {
        return Err(PreparationFailed), generated;
      }
      BatchAdvances(old(file), processed, last, c, page, rows, gathered.value, f);
      r := Ok(page);
    }

    /** The body of the try block.  It ends well exactly when nothing outside fails and every chunk can be
        reached by the keyset loop. */
    method BuildIndex(c: Config, ghost f: string -> Vector) returns (r: Result<Counts, Code>)
      requires DistinctIds(file.chunks)
      modifies this
      ensures file.chunks == old(file.chunks) && file.directory == old(file.directory)
      ensures r.Ok? ==> Finished(file, r.value, c, f) && file.mark == Mark.IndexReady
      ensures r.Err? ==> file == old(file) || file.mark == Mark.Rebuilding
      ensures Calm(file.chunks, c, f) ==>
        (r.Ok? <==> |file.chunks| > 0 && c.batchSize != 0 && forall k | k in file.chunks :: k >= 0)
    {
      hide RebuiltUpTo, Lawful, FitsAll, Finished, Page, Order, Queue, CountsReuse, Validates, Rows, DistinctIds, ReusedCount,
        Stored, Increasing;
      var checkpoint, call, reused, generated := 2, 0, 0, 0;
      if c.cancelled(0) || c.cancelled(1) {
        return Err(JobCancelled);
      }
      var total := |file.chunks|;
      if total <= 0 {
        return Err(PreparationFailed);
      }
      InitializeIndexTables();
      RebuildStarts(old(file), c, f);
      OrderCovers(file.chunks);
      var processed, last := 0, -1;
      while processed < total
        invariant 0 <= processed <= total
        invariant file.chunks == old(file.chunks) && file.directory == old(file.directory)
        invariant file.mark == Mark.Rebuilding
        invariant RebuiltUpTo(file, processed, last, c, f)
        invariant 0 <= reused && 0 <= generated && reused + generated == processed
        invariant CountsReuse(file.chunks, processed, reused, c.reusable)
        invariant c.batchSize == 0 ==> processed == 0
        decreases total - processed
      {
        if c.cancelled(checkpoint) {
          return Err(JobCancelled);
        }
        NextPage(file, processed, last, c, f);
        var batch, made := IndexBatch(c, call, c.cancelled(checkpoint + 1), processed, last, f);
        if batch.Err? {
          return Err(batch.error);
        }
        var page := batch.value;
        if page == [] {
          break;
        }
        CountsReuseStep(old(file).chunks, processed, page, reused, c.reusable);
        checkpoint, call := checkpoint + 2, call + 1;
        reused, generated := reused + (|page| - made), generated + made;
        processed, last := processed + |page|, page[|page| - 1];
      }
      if processed != total {
        return Err(PreparationFailed);
      }
      if c.cancelled(checkpoint) {
        return Err(JobCancelled);
      }
      RebuildFinishes(file, last, c, f, Counts(total, reused, generated));
      if !Validates(file, total, c.model) {
        return Err(PreparationFailed);
      }
      file := file.(mark := Mark.IndexReady);
      r := Ok(Counts(total, reused, generated));
    }

    /** The try/except around it. Putting the mark back is best effort: without it a failed rebuild leaves the file as it
        was, if nothing had been cleared yet, or marked as being rebuilt. */
    method IndexDocument(c: Config, restorable: bool, ghost f: string -> Vector) returns (r: Result<Counts, Code>)
      requires DistinctIds(file.chunks)
      modifies this
      ensures file.chunks == old(file.chunks)
      ensures r.Ok? ==> Finished(file, r.value, c, f) && file.mark == Mark.IndexReady
      ensures r.Err? ==>
        if restorable then file.mark == NotIndexed else file == old(file) || file.mark == Mark.Rebuilding
      ensures Calm(file.chunks, c, f) ==>
        (r.Ok? <==> |file.chunks| > 0 && c.batchSize != 0 && forall k | k in file.chunks :: k >= 0)
    {
      r := BuildIndex(c, f);
      if r.Err? && restorable {
        file := file.(mark := NotIndexed);
      }
    }
  }
}
