/** The upload side of the pipeline: the flat records are cut into batches,
    each batch becomes one point per record (three embeddings of the record's
    article summary, and a payload copied from the record), and the points are
    handed to the vector store batch by batch. */
module QdrantUpload {
  import opened JsonValue
  import DocumentLoader

  // ---------------------------------------------------------------------------
  // Batching
  // ---------------------------------------------------------------------------

  /** The slices `documents[i:i + size]` for `i` in `range(start, len(documents), size)`.
      Python clamps a slice at the end of the list. */
  function Slices<T>(documents: seq<T>, size: nat, start: nat): seq<seq<T>>
    requires size > 0
    decreases |documents| - start
  {
    if start >= |documents| then []
    else
      var stop := if start + size <= |documents| then start + size else |documents|;
      [documents[start..stop]] + Slices(documents, size, start + size)
  }

  /** batch_creater, driven to the end as the upload loop drives it, including
      the `len(documents) // batch_size` that computes the progress total.
      A zero batch size raises there, and `range` refuses a zero step too; a
      negative one gives an empty range, so no batch at all. */
  function BatchCreater<T>(documents: seq<T>, size: int): (r: Outcome<seq<seq<T>>>)
    ensures r.Raised? <==> size == 0
    ensures size < 0 ==> r == Ok([])
  {
    if size == 0 then Raised
    else if size < 0 then Ok([])
    else Ok(Slices(documents, size, 0))
  }

  /** The batches laid end to end. */
  function Flatten<T>(batches: seq<seq<T>>): seq<T>
  {
    if batches == [] then [] else batches[0] + Flatten(batches[1..])
  }

  lemma {:induction false} SlicesFlatten<T>(documents: seq<T>, size: nat, start: nat)
    requires size > 0 && start <= |documents|
    ensures Flatten(Slices(documents, size, start)) == documents[start..]
    decreases |documents| - start
  {
    if start == |documents| {
    } else if start + size <= |documents| {
      SlicesFlatten(documents, size, start + size);
      assert [documents[start..start + size]] + Slices(documents, size, start + size) == Slices(documents, size, start);
      assert documents[start..start + size] + documents[start + size..] == documents[start..];
    } else {
      assert Slices(documents, size, start + size) == [];
      assert documents[start..|documents|] + [] == documents[start..];
    }
  }

  /** Concatenating the batches gives back the document list exactly. */
  lemma BatchesRestoreDocuments<T>(documents: seq<T>, size: int)
    requires size > 0
    ensures Flatten(BatchCreater(documents, size).value) == documents
  {
    SlicesFlatten(documents, size, 0);
  }

  lemma {:induction false} SlicesShape<T>(documents: seq<T>, size: nat, start: nat)
    requires size > 0 && start <= |documents|
    ensures var b := Slices(documents, size, start);
      && (forall j :: 0 <= j < |b| ==> 0 < |b[j]| <= size)
      && (forall j :: 0 <= j < |b| - 1 ==> |b[j]| == size)
      && (|b| == 0 <==> start == |documents|)
      && (|b| > 0 ==> (|b| - 1) * size < |documents| - start <= |b| * size)
    decreases |documents| - start
  {
    var b := Slices(documents, size, start);
    if start == |documents| {
    } else if start + size <= |documents| {
      SlicesShape(documents, size, start + size);
      var rest := Slices(documents, size, start + size);
      assert b == [documents[start..start + size]] + rest;
      assert forall j :: 1 <= j < |b| ==> b[j] == rest[j - 1];
      assert |b| * size == |rest| * size + size;
    } else {
      assert Slices(documents, size, start + size) == [];
      assert b == [documents[start..|documents|]];
    }
  }

  /** Every batch is non-empty and holds at most `size` documents, and every
      batch but the last holds exactly `size`. */
  lemma BatchSizes<T>(documents: seq<T>, size: int)
    requires size > 0
    ensures var b := BatchCreater(documents, size).value;
      && (forall j :: 0 <= j < |b| ==> 0 < |b[j]| <= size)
      && (forall j :: 0 <= j < |b| - 1 ==> |b[j]| == size)
  {
    SlicesShape(documents, size, 0);
  }

  /** There are ceil(len(documents) / size) batches; no documents, no batches. */
  lemma BatchCount<T>(documents: seq<T>, size: int)
    requires size > 0
    ensures var b := BatchCreater(documents, size).value;
      && (|b| == 0 <==> documents == [])
      && (|b| > 0 ==> (|b| - 1) * size < |documents| <= |b| * size)
      && |b| == (|documents| + size - 1) / size
  {
    var b := BatchCreater(documents, size).value;
    SlicesShape(documents, size, 0);
    if |b| > 0 {
      CeilingDivision(|documents|, size, |b|);
    }
  }

  /** `c` is the ceiling of `n / d` when `(c - 1) * d < n <= c * d`. */
  lemma CeilingDivision(n: int, d: int, c: int)
    requires d > 0 && c > 0 && (c - 1) * d < n <= c * d
    ensures c == (n + d - 1) / d
  {
    var q := (n + d - 1) / d;
    assert q * d <= n + d - 1 < q * d + d;
    assert (c - 1) * d + d == c * d && (c + 1) * d == c * d + d && (q + 1) * d == q * d + d;
    if q < c {
      MultiplyMonotone(q + 1, c, d);
    } else if q > c {
      MultiplyMonotone(c + 1, q, d);
    }
  }

  lemma MultiplyMonotone(a: int, b: int, d: int)
    requires a <= b && d > 0
    ensures a * d <= b * d
  {
    assert b * d - a * d == (b - a) * d;
  }

  // ---------------------------------------------------------------------------
  // Points
  // ---------------------------------------------------------------------------

  /** A BM25 vector as `SparseEmbedding.as_object()` hands it over. */
  datatype SparseVector = SparseVector(indices: seq<nat>, values: seq<real>)

  /** The three named vectors of one point: "openai-embedding", "bm25",
      "late_interaction". */
  datatype Vectors = Vectors(openaiEmbedding: seq<real>, bm25: SparseVector, lateInteraction: seq<seq<real>>)

  /** `models.PointStruct(id, vector, payload)`. */
  datatype Point = Point(id: Json, vector: Vectors, payload: map<string, Json>)

  /** The three embedding models, each taking the list of texts of one batch
      and either returning one embedding per text or raising. */
  datatype Embedders = Embedders(
    dense: seq<Json> -> Outcome<seq<seq<real>>>,
    sparse: seq<Json> -> Outcome<seq<SparseVector>>,
    late: seq<Json> -> Outcome<seq<seq<seq<real>>>>)

  /** The record fields a point's payload copies. */
  const PayloadKeys: set<string> := {
    "id", "root_title", "root_summary", "root_issue_date", "root_effective_date",
    "chapter_title", "chapter_summary", "section_title", "section_summary", "raw_articles"}

  /** The fields the upload loop indexes in every record: the payload's and the
      text that is embedded. */
  const RequiredKeys: set<string> := PayloadKeys + {"article_summary"}

  /** A record the loop can read: a dict holding every required key. */
  predicate HasColumns(doc: Json)
  {
    doc.Obj? && RequiredKeys <= doc.fields.Keys
  }

  /** `[doc[key] for doc in batch]`: `doc[key]` raises on a missing key and on
      anything that is not a dict. */
  function Column(batch: seq<Json>, key: string): (r: Outcome<seq<Json>>)
    ensures r.Ok? <==> forall k :: 0 <= k < |batch| ==> batch[k].Obj? && key in batch[k].fields
    ensures r.Ok? ==> |r.value| == |batch| && forall k :: 0 <= k < |batch| ==> r.value[k] == batch[k].fields[key]
  {
    if batch == [] then Ok([])
    else if batch[0].Obj? && key in batch[0].fields then
      var rest :- Column(batch[1..], key);
      Ok([batch[0].fields[key]] + rest)
    else Raised
  }

  /** The eleven comprehensions of one iteration, keyed by the record field
      each one reads. The loop raises at the first of them that fails; which
      one fails does not change the outcome. */
  function Table(batch: seq<Json>): (r: Outcome<map<string, seq<Json>>>)
    ensures r.Ok? <==> forall k :: 0 <= k < |batch| ==> HasColumns(batch[k])
    ensures r.Ok? ==> r.value.Keys == RequiredKeys
    ensures r.Ok? ==> forall key :: key in RequiredKeys ==>
      |r.value[key]| == |batch| && forall k :: 0 <= k < |batch| ==> r.value[key][k] == batch[k].fields[key]
  {
    if forall key :: key in RequiredKeys ==> Column(batch, key).Ok? then
      Ok(map key | key in RequiredKeys :: Column(batch, key).value)
    else Raised
  }

  /** The texts the embedders receive: the records' article summaries. */
  function Texts(batch: seq<Json>): seq<Json>
    requires forall k :: 0 <= k < |batch| ==> HasColumns(batch[k])
  {
    Table(batch).value["article_summary"]
  }

  /** An id `models.PointStruct` accepts: qdrant_client declares it as a strict
      int or a strict str, so null, a boolean, a list or a dict raises. */
  predicate PointId(id: Json)
  {
    id.Str? || id.Num?
  }

  /** Every readable record of a batch has an id PointStruct accepts. */
  predicate PointIds(batch: seq<Json>)
  {
    forall k :: 0 <= k < |batch| && HasColumns(batch[k]) ==> PointId(batch[k].fields["id"])
  }

  /** The point built for `record`, payload and all. */
  predicate PointFor(p: Point, record: Json)
  {
    && HasColumns(record)
    && PointId(p.id)
    && p.id == record.fields["id"]
    && p.payload.Keys == PayloadKeys
    && forall key :: key in PayloadKeys ==> p.payload[key] == record.fields[key]
  }

  /** `points[k]` is the point for `records[k]`, for every `k`. */
  predicate PointsFor(points: seq<Point>, records: seq<Json>)
  {
    |points| == |records| && forall k :: 0 <= k < |points| ==> PointFor(points[k], records[k])
  }

  /** The embedders all answer the texts of a readable batch, with at least one
      embedding per record (the comprehension indexes them by record). */
  predicate Embedded(batch: seq<Json>, e: Embedders)
    requires forall k :: 0 <= k < |batch| ==> HasColumns(batch[k])
  {
    var texts := Texts(batch);
    && e.dense(texts).Ok? && |e.dense(texts).value| >= |batch|
    && e.sparse(texts).Ok? && |e.sparse(texts).value| >= |batch|
    && e.late(texts).Ok? && |e.late(texts).value| >= |batch|
  }

  /** The point for record `i` of a batch, from the columns and its vectors. */
  function PointOf(table: map<string, seq<Json>>, vector: Vectors, i: nat): Point
    requires forall key :: key in RequiredKeys ==> key in table && i < |table[key]|
  {
    Point(table["id"][i], vector, map key | key in PayloadKeys :: table[key][i])
  }

  /** One iteration of upload_documents' loop up to the store call: the
      columns, the three embeddings of the summaries, and the list of points,
      whose construction raises on an id PointStruct refuses. */
  function BatchPoints(batch: seq<Json>, e: Embedders): (r: Outcome<seq<Point>>)
    ensures r.Ok? <==> (forall k :: 0 <= k < |batch| ==> HasColumns(batch[k])) && Embedded(batch, e) && PointIds(batch)
    ensures r.Ok? ==> |r.value| == |batch|
  {
    var table :- Table(batch);
    var texts := table["article_summary"];
    var dense :- e.dense(texts);
    var sparse :- e.sparse(texts);
    var late :- e.late(texts);
    if |dense| < |batch| || |sparse| < |batch| || |late| < |batch| then Raised
    else if exists k :: 0 <= k < |batch| && !PointId(table["id"][k]) then Raised
    else
      Ok(seq(|batch|, i requires 0 <= i < |batch| => PointOf(table, Vectors(dense[i], sparse[i], late[i]), i)))
  }

  /** Point `k` of a batch is the point for record `k`: its id and payload `id`
      are the record's `id`, its payload copies the payload fields and leaves
      `article_summary` out, and its vectors are the `k`-th embeddings of the
      batch's summaries. */
  lemma BatchPointsFollowRecords(batch: seq<Json>, e: Embedders)
    requires BatchPoints(batch, e).Ok?
    ensures var points := BatchPoints(batch, e).value;
      && PointsFor(points, batch)
      && forall k :: 0 <= k < |points| ==>
        && "article_summary" !in points[k].payload
        && points[k].vector == Vectors(
             e.dense(Texts(batch)).value[k], e.sparse(Texts(batch)).value[k], e.late(Texts(batch)).value[k])
  {
    var points := BatchPoints(batch, e).value;
    var table := Table(batch).value;
    var texts := table["article_summary"];
    assert texts == Texts(batch);
    var dense, sparse, late := e.dense(texts).value, e.sparse(texts).value, e.late(texts).value;
    assert points == seq(|batch|, i requires 0 <= i < |batch| => PointOf(table, Vectors(dense[i], sparse[i], late[i]), i));
    forall k | 0 <= k < |points|
      ensures PointFor(points[k], batch[k])
      ensures "article_summary" !in points[k].payload
      ensures points[k].vector == Vectors(dense[k], sparse[k], late[k])
    {
      assert points[k] == PointOf(table, Vectors(dense[k], sparse[k], late[k]), k);
      PointOfRecord(table, Vectors(dense[k], sparse[k], late[k]), batch, k);
    }
  }

  /** The point built from column row `k` is the point for record `k`. */
  lemma PointOfRecord(table: map<string, seq<Json>>, vector: Vectors, batch: seq<Json>, k: nat)
    requires k < |batch| && HasColumns(batch[k]) && PointId(batch[k].fields["id"])
    requires forall key :: key in RequiredKeys ==> key in table && |table[key]| == |batch| && table[key][k] == batch[k].fields[key]
    ensures PointFor(PointOf(table, vector, k), batch[k])
    ensures "article_summary" !in PointOf(table, vector, k).payload
  {
    assert "article_summary" !in PayloadKeys && "id" in PayloadKeys;
  }

  // ---------------------------------------------------------------------------
  // The whole run
  // ---------------------------------------------------------------------------

  /** What a run leaves behind: the points the store received, in order, and
      whether the loop finished without raising. */
  datatype RunLog = RunLog(stored: seq<Point>, completed: bool)

  /** `done` were stored before the rest of the run. */
  function Continue(done: seq<Point>, log: RunLog): RunLog
  {
    RunLog(done + log.stored, log.completed)
  }

  /** The loop over the batches. `accepts` is the store's `upload_points`: it
      either stores the whole list or raises. */
  function UploadBatches(batches: seq<seq<Json>>, e: Embedders, accepts: seq<Point> -> bool): RunLog
  {
    if batches == [] then RunLog([], true)
    else
      match BatchPoints(batches[0], e)
      case Raised => RunLog([], false)
      case Ok(points) =>
        if accepts(points) then Continue(points, UploadBatches(batches[1..], e, accepts))
        else RunLog([], false)
  }

  /** upload_documents: everything between `try` and the re-raise. */
  function UploadRun(documents: seq<Json>, size: int, e: Embedders, accepts: seq<Point> -> bool): RunLog
  {
    match BatchCreater(documents, size)
    case Raised => RunLog([], false)
    case Ok(batches) => UploadBatches(batches, e, accepts)
  }

  lemma AppendAssoc(a: seq<Point>, b: seq<Point>, c: seq<Point>)
    ensures a + (b + c) == (a + b) + c
  {
  }

  lemma ContinueAppend(a: seq<Point>, b: seq<Point>, log: RunLog)
    ensures Continue(a, Continue(b, log)) == Continue(a + b, log)
  {
    assert a + (b + log.stored) == (a + b) + log.stored;
  }

  /** One step of the loop over `batches[i..]`. */
  lemma UploadStep(batches: seq<seq<Json>>, i: nat, e: Embedders, accepts: seq<Point> -> bool)
    requires i < |batches|
    ensures var p := BatchPoints(batches[i], e);
      UploadBatches(batches[i..], e, accepts)
      == if p.Ok? && accepts(p.value) then Continue(p.value, UploadBatches(batches[i + 1..], e, accepts)) else RunLog([], false)
  {
    assert batches[i..][1..] == batches[i + 1..];
  }

  lemma PointsForAppend(a: seq<Point>, x: seq<Json>, b: seq<Point>, y: seq<Json>)
    requires PointsFor(a, x) && PointsFor(b, y)
    ensures PointsFor(a + b, x + y)
  {
    assert forall k :: |a| <= k < |a + b| ==> (a + b)[k] == b[k - |a|] && (x + y)[k] == y[k - |a|];
  }

  /** The store receives the points of a prefix of the records, one per record
      and in order, and all of them when the loop finishes. */
  lemma {:induction false} UploadBatchesStored(batches: seq<seq<Json>>, e: Embedders, accepts: seq<Point> -> bool)
    ensures var run := UploadBatches(batches, e, accepts);
      && |run.stored| <= |Flatten(batches)|
      && PointsFor(run.stored, Flatten(batches)[..|run.stored|])
      && (run.completed ==> |run.stored| == |Flatten(batches)|)
  {
    if batches != [] {
      var r := BatchPoints(batches[0], e);
      if r.Ok? && accepts(r.value) {
        BatchPointsFollowRecords(batches[0], e);
        var rest := UploadBatches(batches[1..], e, accepts);
        UploadBatchesStored(batches[1..], e, accepts);
        var tail := Flatten(batches[1..]);
        assert Flatten(batches) == batches[0] + tail;
        assert UploadBatches(batches, e, accepts).stored == r.value + rest.stored;
        PrefixOfAppend(batches[0], tail, |rest.stored|);
        PointsForAppend(r.value, batches[0], rest.stored, tail[..|rest.stored|]);
      }
    }
  }

  lemma PrefixOfAppend(a: seq<Json>, b: seq<Json>, n: nat)
    requires n <= |b|
    ensures (a + b)[..|a| + n] == a + b[..n]
  {
  }

  /** The points a run stores follow the document list: point `k` carries the
      `id` and the payload fields of document `k`. A run that finishes has stored
      every document exactly once, in order. */
  lemma StoredPointsFollowDocuments(documents: seq<Json>, size: int, e: Embedders, accepts: seq<Point> -> bool)
    ensures var run := UploadRun(documents, size, e, accepts);
      && |run.stored| <= |documents|
      && PointsFor(run.stored, documents[..|run.stored|])
      && (run.completed && size > 0 ==> PointsFor(run.stored, documents))
      && (size < 0 ==> run == RunLog([], true))
  {
    if size > 0 {
      var batches := BatchCreater(documents, size).value;
      BatchesRestoreDocuments(documents, size);
      UploadBatchesStored(batches, e, accepts);
      var run := UploadRun(documents, size, e, accepts);
      assert run == UploadBatches(batches, e, accepts);
      if run.completed {
        assert documents[..|run.stored|] == documents;
      }
    }
  }

  /** A single record missing a required key, or a zero batch size, makes the
      run raise. (A negative batch size reads no record at all.) */
  lemma MissingKeyAbortsRun(documents: seq<Json>, size: int, e: Embedders, accepts: seq<Point> -> bool)
    requires size == 0 || (size > 0 && exists k :: 0 <= k < |documents| && !HasColumns(documents[k]))
    ensures !UploadRun(documents, size, e, accepts).completed
  {
    StoredPointsFollowDocuments(documents, size, e, accepts);
  }

  /** A positive batch size and a record whose id is neither a string nor an
      int make the run raise, whatever the embedders and the store do. */
  lemma BadIdAbortsRun(documents: seq<Json>, size: int, e: Embedders, accepts: seq<Point> -> bool)
    requires size > 0
    requires exists k :: 0 <= k < |documents| && HasColumns(documents[k]) && !PointId(documents[k].fields["id"])
    ensures !UploadRun(documents, size, e, accepts).completed
  {
    StoredPointsFollowDocuments(documents, size, e, accepts);
  }

  /** A batch gets through one iteration: its points can be built (every record
      holds every key and an id PointStruct accepts, and all three embedders
      answer) and the store takes them. */
  predicate BatchGoesThrough(batch: seq<Json>, e: Embedders, accepts: seq<Point> -> bool)
  {
    BatchPoints(batch, e).Ok? && accepts(BatchPoints(batch, e).value)
  }

  /** The loop finishes iff every batch gets through: a missing key, a refused
      id, an embedder that raises or a store that raises, in any batch, aborts
      the run. */
  lemma {:induction false} UploadCompletesIff(batches: seq<seq<Json>>, e: Embedders, accepts: seq<Point> -> bool)
    ensures UploadBatches(batches, e, accepts).completed
      <==> forall j :: 0 <= j < |batches| ==> BatchGoesThrough(batches[j], e, accepts)
  {
    if batches == [] {
      assert UploadBatches(batches, e, accepts).completed;
    } else {
      var rest := batches[1..];
      UploadCompletesIff(rest, e, accepts);
      UploadHead(batches, e, accepts);
      assert forall j :: 1 <= j < |batches| ==> batches[j] == rest[j - 1];
    }
  }

  lemma UploadHead(batches: seq<seq<Json>>, e: Embedders, accepts: seq<Point> -> bool)
    requires batches != []
    ensures UploadBatches(batches, e, accepts).completed
      == (BatchGoesThrough(batches[0], e, accepts) && UploadBatches(batches[1..], e, accepts).completed)
  {
    assert batches[0..] == batches;
    UploadStep(batches, 0, e, accepts);
  }

  /** upload_documents returns without raising iff the batch size is non-zero and
      every batch of `batch_creater` gets through. */
  lemma RunCompletesIff(documents: seq<Json>, size: int, e: Embedders, accepts: seq<Point> -> bool)
    ensures UploadRun(documents, size, e, accepts).completed
      <==> size != 0 && forall j :: 0 <= j < |BatchCreater(documents, size).value| ==>
        BatchGoesThrough(BatchCreater(documents, size).value[j], e, accepts)
  {
    if size != 0 {
      UploadCompletesIff(BatchCreater(documents, size).value, e, accepts);
    }
  }

  /** Every record the flattener produces has the keys the upload loop reads. */
  lemma FlattenedRecordsHaveColumns(files: seq<Outcome<Json>>)
    ensures forall k :: 0 <= k < |DocumentLoader.RunsRecords(files)| ==> HasColumns(DocumentLoader.RunsRecords(files)[k])
  {
    var records := DocumentLoader.RunsRecords(files);
    var groups := DocumentLoader.FileGroups(files);
    if groups.Ok? && records != [] {
      DocumentLoader.RunsOneRecordPerGroup(files);
      forall k | 0 <= k < |records| ensures HasColumns(records[k]) {
        assert DocumentLoader.FlatRecord(groups.value[k]) == Ok(records[k]);
        assert RequiredKeys == DocumentLoader.RecordKeys;
      }
    }
  }

  /** QdrantUploader with the store's collection as the points it has received. */
  class QdrantUploader {
    const documents: seq<Json>
    const batchSize: int
    const embedders: Embedders
    const accepts: seq<Point> -> bool
    var uploaded: seq<Point>

    constructor(documents: seq<Json>, batchSize: int, embedders: Embedders, accepts: seq<Point> -> bool)
      ensures this.documents == documents && this.batchSize == batchSize
      ensures this.embedders == embedders && this.accepts == accepts
      ensures uploaded == []
    {
      this.documents := documents;
      this.batchSize := batchSize;
      this.embedders := embedders;
      this.accepts := accepts;
      uploaded := [];
    }

    /** The body of upload_documents' loop for batch `i`: build the batch's
        points and hand them to the store, which keeps them all or raises. */
    method UploadBatch(batches: seq<seq<Json>>, i: nat) returns (ok: bool, ghost points: seq<Point>)
      requires i < |batches|
      modifies this
      ensures ok <==> BatchGoesThrough(batches[i], embedders, accepts)
      ensures ok ==> points == BatchPoints(batches[i], embedders).value
      ensures ok ==> uploaded == old(uploaded) + points
      ensures ok ==> UploadBatches(batches[i..], embedders, accepts) == Continue(points, UploadBatches(batches[i + 1..], embedders, accepts))
      ensures !ok ==> uploaded == old(uploaded) && UploadBatches(batches[i..], embedders, accepts) == RunLog([], false)
    {
      UploadStep(batches, i, embedders, accepts);
      var built := BatchPoints(batches[i], embedders);
      if built.Raised? || !accepts(built.value) {
        return false, [];
      }
      uploaded := uploaded + built.value;
      return true, built.value;
    }

    /** upload_documents' loop over the batches; stops at the first batch that
        cannot be built or stored, keeping what earlier batches stored. */
    method UploadAll(batches: seq<seq<Json>>) returns (completed: bool)
      modifies this
      ensures uploaded == old(uploaded) + UploadBatches(batches, embedders, accepts).stored
      ensures completed == UploadBatches(batches, embedders, accepts).completed
    {
      ghost var sent: seq<Point> := [];
      ghost var start := uploaded;
      var i := 0;
      assert batches[0..] == batches;
      while i < |batches|
        invariant 0 <= i <= |batches|
        invariant uploaded == start + sent
        invariant UploadBatches(batches, embedders, accepts) == Continue(sent, UploadBatches(batches[i..], embedders, accepts))
      {
        var ok, points := UploadBatch(batches, i);
        if !ok {
          assert sent + [] == sent;
          return false;
        }
        ContinueAppend(sent, points, UploadBatches(batches[i + 1..], embedders, accepts));
        AppendAssoc(start, sent, points);
        sent := sent + points;
        i := i + 1;
      }
      assert batches[i..] == [];
      assert sent + [] == sent;
      return true;
    }

    /** upload_documents: batch the documents and upload them batch by batch;
        any exception is re-raised. */
    method UploadDocuments() returns (r: Outcome<()>)
      modifies this
      ensures var run := UploadRun(documents, batchSize, embedders, accepts);
        && uploaded == old(uploaded) + run.stored
        && (r.Ok? <==> run.completed)
    {
      var created := BatchCreater(documents, batchSize);
      if created.Raised? {
        assert uploaded + [] == uploaded;
        return Raised;
      }
      var completed := UploadAll(created.value);
      r := if completed then Ok(()) else Raised;
    }
  }
}
