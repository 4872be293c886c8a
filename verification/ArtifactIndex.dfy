/** One artifact database and its index rebuild (app/local_compute/indexing.py).

    The chunk table is a map from its UNIQUE chunk_index to the row. */
module ArtifactIndex {
  import opened Wrappers
  import opened LocalJobs
  import opened Ordering

  type ChunkId = nat

  const EMBEDDING_DIMENSION: nat := 768
  const INDEX_VERSION := "block3-v1"

  /** What the checks can see of a vector: its length, finiteness and measured Euclidean norm. */
  datatype Vector = Vector(dimension: nat, finite: bool, norm: real, payload: nat)

  predicate ValidVector(v: Vector) {
    v.dimension == EMBEDDING_DIMENSION && v.finite && 0.9999 <= v.norm <= 1.0001
  }

  datatype Chunk = Chunk(id: ChunkId, embeddingText: string, contentText: string)

  type Chunks = map<int, Chunk>

  datatype EmbeddingRow = EmbeddingRow(model: string, dimension: nat, normalized: nat, version: string, vector: Vector)

  type Embeddings = map<ChunkId, EmbeddingRow>

  type Lexical = seq<(ChunkId, string)>

  /** The `index_state` key of artifact_metadata; absent in a freshly prepared artifact. */
  datatype Mark = Unmarked | NotIndexed | Rebuilding | IndexReady

  datatype ArtifactFile = ArtifactFile(
    directory: DocId, chunks: Chunks, embeddings: Embeddings, lexical: Lexical, mark: Mark)

  // ---------- what a finished index is ----------

  /** The chunk id is the primary key of the chunk table. */
  ghost predicate DistinctIds(chunks: Chunks) {
    forall i, j | i in chunks && j in chunks && i != j :: chunks[i].id != chunks[j].id
  }

  predicate RowValid(row: EmbeddingRow, model: string) {
    && row.model == model
    && row.dimension == EMBEDDING_DIMENSION
    && row.normalized == 1
    && row.version == INDEX_VERSION
    && ValidVector(row.vector)
  }

  predicate AllValid(table: Embeddings, model: string) {
    forall id | id in table :: RowValid(table[id], model)
  }

  function Ids(rows: seq<Chunk>): set<ChunkId> {
    set r | r in rows :: r.id
  }

  function LexicalRow(c: Chunk): (ChunkId, string) {
    (c.id, c.contentText)
  }

  /** Exactly one validated embedding row and exactly one lexical row per chunk, and nothing else. */
  ghost predicate Complete(file: ArtifactFile) {
    && file.embeddings.Keys == (set k | k in file.chunks :: file.chunks[k].id)
    && (exists model :: AllValid(file.embeddings, model))
    && (forall k | k in file.chunks :: LexicalRow(file.chunks[k]) in file.lexical)
    && (forall e | e in file.lexical :: exists k :: k in file.chunks && e == LexicalRow(file.chunks[k]))
    && (forall i, j | 0 <= i < j < |file.lexical| :: file.lexical[i].0 != file.lexical[j].0)
  }

  // ---------- the committed steps of a rebuild ----------

  function Above(chunks: Chunks, last: int): set<int> {
    set k | k in chunks && k > last
  }

  predicate Stored(chunks: Chunks, keys: seq<int>) {
    forall i | 0 <= i < |keys| :: keys[i] in chunks
  }

  /** The rows stored under the given keys. */
  function Rows(chunks: Chunks, keys: seq<int>): (rows: seq<Chunk>)
    requires Stored(chunks, keys)
    ensures |rows| == |keys|
    ensures forall i | 0 <= i < |keys| :: rows[i] == chunks[keys[i]]
  {
    seq(|keys|, i requires 0 <= i < |keys| => chunks[keys[i]])
  }

  /** The keys the keyset loop can reach, in its order: it starts above -1. */
  ghost function Order(chunks: Chunks): (r: seq<int>)
    ensures Increasing(r) && Stored(chunks, r)
    ensures forall x :: x in r <==> x in chunks && x > -1
  {
    var r := Ascending(Above(chunks, -1));
    assert forall i | 0 <= i < |r| :: r[i] in r;
    r
  }

  /** The rows the loop will see, in its order. */
  ghost function Queue(chunks: Chunks): (rows: seq<Chunk>)
    ensures |rows| == |Order(chunks)|
  {
    Rows(chunks, Order(chunks))
  }

  /** `WHERE chunk_index > ? ORDER BY chunk_index ASC LIMIT ?`; a negative limit means no limit. */
  ghost function Page(chunks: Chunks, last: int, limit: int): (page: seq<int>)
    ensures Stored(chunks, page) && forall i | 0 <= i < |page| :: page[i] > last
  {
    var keys := Ascending(Above(chunks, last));
    assert forall i | 0 <= i < |keys| :: keys[i] in keys;
    if limit < 0 || |keys| <= limit then keys else keys[..limit]
  }

  function Cleared(file: ArtifactFile): ArtifactFile {
    file.(embeddings := map[], lexical := [], mark := Rebuilding)
  }

  function IndexRow(model: string, v: Vector): EmbeddingRow {
    EmbeddingRow(model, EMBEDDING_DIMENSION, 1, INDEX_VERSION, v)
  }

  function WithEmbeddings(table: Embeddings, rows: seq<Chunk>, vectors: seq<Vector>, model: string): Embeddings
    requires |vectors| == |rows|
  {
    if rows == [] then
      table
    else
      var n := |rows| - 1;
      WithEmbeddings(table, rows[..n], vectors[..n], model)[rows[n].id := IndexRow(model, vectors[n])]
  }

  function LexicalOf(rows: seq<Chunk>): (r: Lexical)
    ensures |r| == |rows|
    ensures forall i | 0 <= i < |rows| :: r[i] == LexicalRow(rows[i])
  {
    seq(|rows|, i requires 0 <= i < |rows| => LexicalRow(rows[i]))
  }

  /** One batch transaction. */
  function Appended(file: ArtifactFile, rows: seq<Chunk>, vectors: seq<Vector>, model: string): ArtifactFile
    requires |vectors| == |rows|
  {
    file.(embeddings := WithEmbeddings(file.embeddings, rows, vectors, model),
          lexical := file.lexical + LexicalOf(rows))
  }

  /** The checks of `_validate`. */
  predicate Validates(file: ArtifactFile, total: nat, model: string) {
    && |file.embeddings| == total
    && |file.lexical| == total
    && AllValid(file.embeddings, model)
  }

  // ---------- the invariant of a rebuild in progress ----------

  /** Exactly the first `n` reachable chunks are indexed, in order, and `last` is the last of them. */
  ghost predicate PrefixIndexed(file: ArtifactFile, n: nat, last: int, model: string) {
    && n <= |Order(file.chunks)|
    && last == (if n == 0 then -1 else Order(file.chunks)[n - 1])
    && file.lexical == LexicalOf(Queue(file.chunks)[..n])
    && file.embeddings.Keys == Ids(Queue(file.chunks)[..n])
    && AllValid(file.embeddings, model)
  }

  lemma PrefixBounds(file: ArtifactFile, n: nat, last: int, model: string)
    requires PrefixIndexed(file, n, last, model)
    ensures n <= |Order(file.chunks)| == |Queue(file.chunks)|
    ensures last == if n == 0 then -1 else Order(file.chunks)[n - 1]
  {
  }

  lemma ClearedStarts(file: ArtifactFile, model: string)
    ensures PrefixIndexed(Cleared(file), 0, -1, model)
  {
    assert Queue(file.chunks)[..0] == [];
  }

  /** The rows above the last processed key are exactly the unprocessed tail of the order. */
  lemma TailAbove(chunks: Chunks, n: nat, last: int)
    requires n <= |Order(chunks)|
    requires last == if n == 0 then -1 else Order(chunks)[n - 1]
    ensures Ascending(Above(chunks, last)) == Order(chunks)[n..]
  {
    hide Order, Ascending;
    var order := Order(chunks);
    var above := Ascending(Above(chunks, last));
    forall x ensures x in above <==> x in order[n..] {
      if x in above {
        assert x in order;
        var i :| 0 <= i < |order| && order[i] == x;
        assert i >= n;
        assert order[n..][i - n] == x;
      }
    }
    IncreasingUnique(above, order[n..]);
  }

  lemma RowsSlice(chunks: Chunks, keys: seq<int>, lo: nat, hi: nat)
    requires Stored(chunks, keys) && lo <= hi <= |keys|
    ensures Stored(chunks, keys[lo..hi])
    ensures Rows(chunks, keys[lo..hi]) == Rows(chunks, keys)[lo..hi]
  {
    var part := keys[lo..hi];
    assert forall i | 0 <= i < |part| :: part[i] == keys[lo + i];
  }

  /** Each page is the next slice of the order, empty only at the end (or for LIMIT 0). */
  lemma PageIsNextSlice(chunks: Chunks, n: nat, last: int, limit: int)
    requires n <= |Order(chunks)|
    requires last == if n == 0 then -1 else Order(chunks)[n - 1]
    ensures n + |Page(chunks, last, limit)| <= |Order(chunks)|
    ensures Page(chunks, last, limit) == Order(chunks)[n..n + |Page(chunks, last, limit)|]
    ensures limit != 0 && n < |Order(chunks)| ==> Page(chunks, last, limit) != []
  {
    TailAbove(chunks, n, last);
    var tail := Order(chunks)[n..];
    var page := Page(chunks, last, limit);
    assert page == tail[..|page|];
  }

  /** The same for the rows fetched. */
  lemma PageRows(chunks: Chunks, n: nat, last: int, limit: int)
    requires n <= |Order(chunks)|
    requires last == if n == 0 then -1 else Order(chunks)[n - 1]
    ensures var page := Page(chunks, last, limit);
      && n + |page| <= |Queue(chunks)|
      && Rows(chunks, page) == Queue(chunks)[n..n + |page|]
  {
    PageIsNextSlice(chunks, n, last, limit);
    RowsSlice(chunks, Order(chunks), n, n + |Page(chunks, last, limit)|);
  }

  ghost predicate DistinctRowIds(rows: seq<Chunk>) {
    forall i, j | 0 <= i < j < |rows| :: rows[i].id != rows[j].id
  }

  lemma QueueIdsDistinct(chunks: Chunks)
    requires DistinctIds(chunks)
    ensures DistinctRowIds(Queue(chunks))
  {
    var order := Order(chunks);
    forall i, j | 0 <= i < j < |order| ensures Queue(chunks)[i].id != Queue(chunks)[j].id {
      assert order[i] in order && order[j] in order;
    }
  }

  lemma IdsConcat(a: seq<Chunk>, b: seq<Chunk>)
    ensures Ids(a + b) == Ids(a) + Ids(b)
  {
    forall id ensures id in Ids(a + b) <==> id in Ids(a) + Ids(b) {
      if id in Ids(a) + Ids(b) {
        if id in Ids(a) {
          var r :| r in a && r.id == id;
          assert r in a + b;
        } else {
          var r :| r in b && r.id == id;
          assert r in a + b;
        }
      }
    }
  }

  lemma {:induction false} IdCount(rows: seq<Chunk>)
    requires DistinctRowIds(rows)
    ensures |Ids(rows)| == |rows|
  {
    if rows == [] {
      assert Ids(rows) == {};
    } else {
      var n := |rows| - 1;
      IdCount(rows[..n]);
      assert rows == rows[..n] + [rows[n]];
      IdsConcat(rows[..n], [rows[n]]);
      assert Ids([rows[n]]) == {rows[n].id};
      assert rows[n].id !in Ids(rows[..n]);
    }
  }

  lemma {:induction false} WithEmbeddingsKeys(table: Embeddings, rows: seq<Chunk>, vectors: seq<Vector>, model: string)
    requires |vectors| == |rows|
    ensures WithEmbeddings(table, rows, vectors, model).Keys == table.Keys + Ids(rows)
  {
    if rows != [] {
      var n := |rows| - 1;
      WithEmbeddingsKeys(table, rows[..n], vectors[..n], model);
      assert rows == rows[..n] + [rows[n]];
      IdsConcat(rows[..n], [rows[n]]);
      assert Ids([rows[n]]) == {rows[n].id};
    }
  }

  lemma IdsHave(rows: seq<Chunk>, n: nat)
    requires DistinctRowIds(rows) && n == |rows| - 1
    ensures rows[n].id !in Ids(rows[..n]) && DistinctRowIds(rows[..n]) && Ids(rows) == Ids(rows[..n]) + {rows[n].id}
  {
    assert rows == rows[..n] + [rows[n]];
    IdsConcat(rows[..n], [rows[n]]);
    assert Ids([rows[n]]) == {rows[n].id};
  }

  lemma {:induction false} WithEmbeddingsAt(table: Embeddings, rows: seq<Chunk>, vectors: seq<Vector>, model: string, i: nat)
    requires |vectors| == |rows| && DistinctRowIds(rows) && i < |rows|
    ensures var after := WithEmbeddings(table, rows, vectors, model);
      rows[i].id in after && after[rows[i].id] == IndexRow(model, vectors[i])
  {
    var n := |rows| - 1;
    if i < n {
      IdsHave(rows, n);
      IdIn(rows[..n], i);
      hide Ids, DistinctRowIds;
      WithEmbeddingsAt(table, rows[..n], vectors[..n], model, i);
    }
  }

  lemma {:induction false} WithEmbeddingsElsewhere(table: Embeddings, rows: seq<Chunk>, vectors: seq<Vector>, model: string,
                                                   id: ChunkId)
    requires |vectors| == |rows| && DistinctRowIds(rows) && id in table && id !in Ids(rows)
    ensures id in WithEmbeddings(table, rows, vectors, model) && WithEmbeddings(table, rows, vectors, model)[id] == table[id]
  {
    if rows != [] {
      var n := |rows| - 1;
      IdsHave(rows, n);
      hide Ids, DistinctRowIds;
      WithEmbeddingsElsewhere(table, rows[..n], vectors[..n], model, id);
    }
  }

  lemma WithEmbeddingsRows(table: Embeddings, rows: seq<Chunk>, vectors: seq<Vector>, model: string)
    requires |vectors| == |rows| && DistinctRowIds(rows)
    ensures var after := WithEmbeddings(table, rows, vectors, model);
      && after.Keys == table.Keys + Ids(rows)
      && (forall i | 0 <= i < |rows| :: rows[i].id in after && after[rows[i].id] == IndexRow(model, vectors[i]))
      && (forall id | id in table && id !in Ids(rows) :: after[id] == table[id])
  {
    hide Ids, DistinctRowIds, WithEmbeddings;
    var after := WithEmbeddings(table, rows, vectors, model);
    WithEmbeddingsKeys(table, rows, vectors, model);
    forall i | 0 <= i < |rows| ensures rows[i].id in after && after[rows[i].id] == IndexRow(model, vectors[i]) {
      WithEmbeddingsAt(table, rows, vectors, model, i);
    }
    forall id | id in table && id !in Ids(rows) ensures id in after && after[id] == table[id] {
      WithEmbeddingsElsewhere(table, rows, vectors, model, id);
    }
  }

  lemma IdIn(rows: seq<Chunk>, i: nat)
    requires i < |rows|
    ensures rows[i].id in Ids(rows)
  {
  }

  lemma LexicalConcat(a: seq<Chunk>, b: seq<Chunk>)
    ensures LexicalOf(a + b) == LexicalOf(a) + LexicalOf(b)
  {
  }

  lemma InsertedValid(table: Embeddings, rows: seq<Chunk>, vectors: seq<Vector>, model: string)
    requires |vectors| == |rows| && DistinctRowIds(rows) && AllValid(table, model)
    requires forall i | 0 <= i < |vectors| :: ValidVector(vectors[i])
    ensures AllValid(WithEmbeddings(table, rows, vectors, model), model)
  {
    WithEmbeddingsRows(table, rows, vectors, model);
    var after := WithEmbeddings(table, rows, vectors, model);
    forall id | id in after ensures RowValid(after[id], model) {
      if id in Ids(rows) {
        var r :| r in rows && r.id == id;
        var i :| 0 <= i < |rows| && rows[i] == r;
        assert after[rows[i].id] == IndexRow(model, vectors[i]);
      }
    }
  }

  /** Appending valid vectors for the next rows of a queue. */
  lemma AppendRows(
    file: ArtifactFile, queue: seq<Chunk>, n: nat, rows: seq<Chunk>, vectors: seq<Vector>, model: string)
    requires DistinctRowIds(queue) && n + |rows| <= |queue| && rows == queue[n..n + |rows|]
    requires file.lexical == LexicalOf(queue[..n]) && file.embeddings.Keys == Ids(queue[..n])
    requires AllValid(file.embeddings, model)
    requires |vectors| == |rows| && forall i | 0 <= i < |vectors| :: ValidVector(vectors[i])
    ensures Appended(file, rows, vectors, model).lexical == LexicalOf(queue[..n + |rows|])
    ensures Appended(file, rows, vectors, model).embeddings.Keys == Ids(queue[..n + |rows|])
    ensures AllValid(Appended(file, rows, vectors, model).embeddings, model)
  {
    RowsDistinct(queue, n, rows);
    hide Ids, DistinctRowIds, AllValid, WithEmbeddings, LexicalOf, ValidVector;
    assert queue[..n + |rows|] == queue[..n] + rows;
    LexicalConcat(queue[..n], rows);
    IdsConcat(queue[..n], rows);
    WithEmbeddingsRows(file.embeddings, rows, vectors, model);
    InsertedValid(file.embeddings, rows, vectors, model);
  }

  lemma RowsDistinct(queue: seq<Chunk>, n: nat, rows: seq<Chunk>)
    requires DistinctRowIds(queue) && n + |rows| <= |queue| && rows == queue[n..n + |rows|]
    ensures DistinctRowIds(rows)
  {
  }

  /** A committed batch of valid vectors advances the rebuild by exactly its page. */
  lemma AppendAdvances(file: ArtifactFile, n: nat, last: int, limit: int, vectors: seq<Vector>, model: string)
    requires DistinctIds(file.chunks) && PrefixIndexed(file, n, last, model)
    requires Page(file.chunks, last, limit) != [] && |vectors| == |Page(file.chunks, last, limit)|
    requires forall i | 0 <= i < |vectors| :: ValidVector(vectors[i])
    ensures var page := Page(file.chunks, last, limit);
      PrefixIndexed(Appended(file, Rows(file.chunks, page), vectors, model), n + |page|, page[|page| - 1], model)
  {
    hide Page, Rows, AllValid, Ids, LexicalOf, WithEmbeddings, DistinctIds, DistinctRowIds, Order, Queue, Stored, Increasing;
    var page := Page(file.chunks, last, limit);
    PageIsNextSlice(file.chunks, n, last, limit);
    PageRows(file.chunks, n, last, limit);
    QueueIdsDistinct(file.chunks);
    AppendRows(file, Queue(file.chunks), n, Rows(file.chunks, page), vectors, model);
    assert page[|page| - 1] == Order(file.chunks)[n + |page| - 1];
  }

  lemma {:induction false} Subset(a: set<int>, b: set<int>)
    requires a <= b
    ensures |a| <= |b| && (|a| == |b| ==> a == b)
  {
    var rest := b - a;
    assert b == a + rest;
    assert |b| == |a| + |rest|;
  }

  /** The loop reaches the whole table exactly when no chunk index is negative. */
  lemma OrderCovers(chunks: Chunks)
    ensures |Order(chunks)| <= |chunks|
    ensures |Order(chunks)| == |chunks| <==> forall k | k in chunks :: k >= 0
  {
    Subset(Above(chunks, -1), chunks.Keys);
    assert |chunks.Keys| == |chunks|;
    assert (forall k | k in chunks :: k >= 0) <==> Above(chunks, -1) == chunks.Keys;
  }

  /** The queue of a table with no negative index holds every row, and nothing else. */
  lemma QueueMembers(chunks: Chunks)
    requires |Order(chunks)| == |chunks|
    ensures forall k | k in chunks :: chunks[k] in Queue(chunks)
    ensures forall i | 0 <= i < |Queue(chunks)| :: exists k :: k in chunks && chunks[k] == Queue(chunks)[i]
  {
    var order, queue := Order(chunks), Queue(chunks);
    OrderCovers(chunks);
    forall k | k in chunks ensures chunks[k] in queue {
      assert k in order;
      var i :| 0 <= i < |order| && order[i] == k;
      assert queue[i] == chunks[k];
    }
    forall i | 0 <= i < |queue| ensures exists k :: k in chunks && chunks[k] == queue[i] {
      assert chunks[order[i]] == queue[i];
    }
  }

  lemma QueueIds(chunks: Chunks)
    requires |Order(chunks)| == |chunks|
    ensures Ids(Queue(chunks)) == set k | k in chunks :: chunks[k].id
  {
    QueueMembers(chunks);
    var queue := Queue(chunks);
    forall id | id in Ids(queue) ensures exists k :: k in chunks && chunks[k].id == id {
      var r :| r in queue && r.id == id;
      var i :| 0 <= i < |queue| && queue[i] == r;
      var k :| k in chunks && chunks[k] == queue[i];
    }
  }

  lemma LexicalMembers(rows: seq<Chunk>)
    ensures forall r | r in rows :: LexicalRow(r) in LexicalOf(rows)
    ensures forall e | e in LexicalOf(rows) :: exists i :: 0 <= i < |rows| && e == LexicalRow(rows[i])
  {
    var lexical := LexicalOf(rows);
    forall r | r in rows ensures LexicalRow(r) in lexical {
      var i :| 0 <= i < |rows| && rows[i] == r;
      assert lexical[i] == LexicalRow(r);
    }
    forall e | e in lexical ensures exists i :: 0 <= i < |rows| && e == LexicalRow(rows[i]) {
      var i :| 0 <= i < |lexical| && lexical[i] == e;
      assert e == LexicalRow(rows[i]);
    }
  }

  /** The lexical rows of a whole queue: one per chunk. */
  lemma QueueLexical(chunks: Chunks)
    requires |Order(chunks)| == |chunks|
    ensures var lexical := LexicalOf(Queue(chunks));
      && (forall k | k in chunks :: LexicalRow(chunks[k]) in lexical)
      && (forall e | e in lexical :: exists k :: k in chunks && e == LexicalRow(chunks[k]))
  {
    hide Order, Queue, LexicalOf;
    QueueMembers(chunks);
    var queue := Queue(chunks);
    LexicalMembers(queue);
    forall e | e in LexicalOf(queue) ensures exists k :: k in chunks && e == LexicalRow(chunks[k]) {
      var i :| 0 <= i < |queue| && e == LexicalRow(queue[i]);
      var k :| k in chunks && chunks[k] == queue[i];
    }
  }

  /** Counting to the table's size is enough: the rebuilt index has every chunk exactly once. */
  lemma FullPrefixIsComplete(file: ArtifactFile, last: int, model: string)
    requires DistinctIds(file.chunks) && PrefixIndexed(file, |file.chunks|, last, model)
    ensures Complete(file) && Validates(file, |file.chunks|, model)
  {
    var chunks, queue := file.chunks, Queue(file.chunks);
    OrderCovers(chunks);
    assert queue[..|chunks|] == queue;
    QueueIdsDistinct(chunks);
    IdCount(queue);
    QueueIds(chunks);
    QueueLexical(chunks);
    assert |file.embeddings| == |file.embeddings.Keys|;
  }
}
