/**
 * Model of the ingestion and search pipeline of the embeddings service
 * (server/embeddings_service/pdf_vectorizer.py): tagging loaded chunks
 * with their source file, embedding them in batches of 20 with a
 * per-chunk fallback, storing records in batches of 10 with a per-record
 * fallback, and the two-tier semantic search.
 *
 * The module-level clients `embeddings` and `supabase` are parameters of
 * type Option (None when the service was not configured). Every call into
 * the embedding provider or the store is a function-typed field of a
 * client value; a result of None or false stands for a call that raised.
 */
module Vectorizer {
  import opened Wrappers
  import opened Seqs
  import opened PyData
  import opened Ranking

  type Vector = seq<real>

  const EmbedBatchSize: nat := 20
  const InsertBatchSize: nat := 10
  const MatchThreshold: real := 0.7
  const ScanWindow: nat := 1000
  /** The default `limit` of `semantic_search`. */
  const DefaultSearchLimit: nat := 3
  const SourceFileKey := "source_file"
  const SimilarityKey := "similarity"
  const EmbeddingKey := "embedding"

  /** A LangChain Document: chunk text and its metadata dict. */
  datatype Document = Document(pageContent: string, metadata: map<string, Value>)

  // ---------------------------------------------------------------------
  // load_and_split_pdf

  /** The path with its trailing slashes removed. */
  function DropTrailingSlashes(path: string): (r: string)
    ensures r <= path
    ensures r == [] || r[|r| - 1] != '/'
  {
    if path != [] && path[|path| - 1] == '/' then DropTrailingSlashes(path[..|path| - 1])
    else path
  }

  /** `r` is the tail of `path` after its last slash (all of `path` when it
      has none). */
  predicate IsLastComponent(r: string, path: string)
  {
    && '/' !in r
    && |r| <= |path| && r == path[|path| - |r|..]
    && (|r| < |path| ==> path[|path| - |r| - 1] == '/')
  }

  /** The characters after the last slash. */
  function LastComponent(path: string): (r: string)
    ensures IsLastComponent(r, path)
  {
    if path == [] || path[|path| - 1] == '/' then []
    else
      var rest := LastComponent(path[..|path| - 1]);
      assert '/' !in rest + [path[|path| - 1]];
      rest + [path[|path| - 1]]
  }

  /** `Path(path).name` on a POSIX path: the last component, ignoring
      trailing slashes. */
  function BaseName(path: string): (r: string)
    ensures '/' !in r
    ensures IsLastComponent(r, DropTrailingSlashes(path))
  {
    LastComponent(DropTrailingSlashes(path))
  }

  /** A chunk with its metadata "source_file" set to `name`: the text and
      every other metadata entry are kept. */
  function Tagged(doc: Document, name: string): Document
  {
    Document(doc.pageContent, doc.metadata[SourceFileKey := JStr(name)])
  }

  lemma TaggedKeepsTheRest(doc: Document, name: string)
    ensures var r := Tagged(doc, name);
      && r.pageContent == doc.pageContent
      && SourceFileKey in r.metadata && r.metadata[SourceFileKey] == JStr(name)
      && r.metadata.Keys == doc.metadata.Keys + {SourceFileKey}
      && forall key :: key in doc.metadata && key != SourceFileKey ==> r.metadata[key] == doc.metadata[key]
  {
  }

  /** `load_and_split_pdf`. `load` is PyPDFLoader followed by the text
      splitter; None means one of them raised. Every chunk comes back
      tagged with the PDF's base name, in the loader's order; a loader
      failure gives []. */
  method LoadAndSplitPdf(pdfPath: string, load: string -> Option<seq<Document>>)
    returns (documents: seq<Document>)
    ensures load(pdfPath).None? ==> documents == []
    ensures load(pdfPath).Some? ==> |documents| == |load(pdfPath).value|
    ensures load(pdfPath).Some? ==>
      forall k :: 0 <= k < |documents| ==> documents[k] == Tagged(load(pdfPath).value[k], BaseName(pdfPath))
  {
    var loaded := load(pdfPath);
    if loaded.None? {
      return [];
    }
    var name := BaseName(pdfPath);
    documents := TagPages(loaded.value, name);
    TagAllShape(loaded.value, name);
  }

  /** The tagging loop of `load_and_split_pdf`. */
  method TagPages(pages: seq<Document>, name: string) returns (documents: seq<Document>)
    ensures documents == TagAll(pages, name)
  {
    documents := [];
    for i := 0 to |pages|
      invariant documents == TagAll(pages[..i], name)
    {
      var doc := pages[i];
      assert pages[..i + 1][..i] == pages[..i];
      documents := documents + [Tagged(doc, name)];
    }
    assert pages[..|pages|] == pages;
  }

  /** Every chunk of `pages` tagged with `name`, in order. */
  function TagAll(pages: seq<Document>, name: string): seq<Document>
  {
    if pages == [] then []
    else TagAll(pages[..|pages| - 1], name) + [Tagged(pages[|pages| - 1], name)]
  }

  lemma {:induction false} TagAllShape(pages: seq<Document>, name: string)
    ensures |TagAll(pages, name)| == |pages|
    ensures forall k :: 0 <= k < |pages| ==> TagAll(pages, name)[k] == Tagged(pages[k], name)
  {
    if pages != [] {
      var init := pages[..|pages| - 1];
      TagAllShape(init, name);
      assert forall k :: 0 <= k < |init| ==> pages[k] == init[k];
    }
  }

  // ---------------------------------------------------------------------
  // generate_embeddings_batch

  /** The embedding client: `embed_documents` for a batch of texts and
      `embed_query` for one text. None stands for a call that raised. */
  datatype EmbeddingClient = EmbeddingClient(
    embedDocuments: seq<string> -> Option<seq<Vector>>,
    embedQuery: string -> Option<Vector>)

  /** One call made to the embedding provider. */
  datatype EmbedCall = BatchCall(texts: seq<string>) | QueryCall(text: string)

  function Texts(docs: seq<Document>): (r: seq<string>)
    ensures |r| == |docs| && forall k :: 0 <= k < |docs| ==> r[k] == docs[k].pageContent
  {
    seq(|docs|, k requires 0 <= k < |docs| => docs[k].pageContent)
  }

  /** Python's `zip`: pairs by position, as long as the shorter input. */
  function Zip(docs: seq<Document>, vs: seq<Vector>): (r: seq<(Document, Vector)>)
    ensures |r| == Min(|docs|, |vs|)
    ensures forall k :: 0 <= k < |r| ==> r[k] == (docs[k], vs[k])
  {
    seq(Min(|docs|, |vs|), k requires 0 <= k < Min(|docs|, |vs|) => (docs[k], vs[k]))
  }

  /** The fallback for a failed batch: one `embed_query` per chunk,
      skipping the chunks whose call raises. */
  function EmbedEach(c: EmbeddingClient, docs: seq<Document>): seq<(Document, Vector)>
  {
    if docs == [] then []
    else
      (match c.embedQuery(docs[0].pageContent)
       case Some(v) => [(docs[0], v)]
       case None => [])
      + EmbedEach(c, docs[1..])
  }

  /** The calls the fallback makes: one per chunk, in order. */
  function QueryCalls(docs: seq<Document>): (r: seq<EmbedCall>)
    ensures |r| == |docs| && forall k :: 0 <= k < |docs| ==> r[k] == QueryCall(docs[k].pageContent)
  {
    seq(|docs|, k requires 0 <= k < |docs| => QueryCall(docs[k].pageContent))
  }

  /** What one batch contributes: zip with the batch's vectors when the
      batch call succeeds, the per-chunk fallback when it raises. */
  function EmbedBatch(c: EmbeddingClient, batch: seq<Document>): seq<(Document, Vector)>
  {
    match c.embedDocuments(Texts(batch))
    case Some(vs) => Zip(batch, vs)
    case None => EmbedEach(c, batch)
  }

  function BatchCalls(c: EmbeddingClient, batch: seq<Document>): seq<EmbedCall>
  {
    [BatchCall(Texts(batch))] + (if c.embedDocuments(Texts(batch)).None? then QueryCalls(batch) else [])
  }

  /** The reference definition of the whole run: consecutive slices of at
      most 20 chunks, each handled by EmbedBatch, results concatenated. */
  function EmbedAll(c: EmbeddingClient, docs: seq<Document>): seq<(Document, Vector)>
    decreases |docs|
  {
    if docs == [] then []
    else
      var n := Min(EmbedBatchSize, |docs|);
      EmbedBatch(c, docs[..n]) + EmbedAll(c, docs[n..])
  }

  function CallsAll(c: EmbeddingClient, docs: seq<Document>): seq<EmbedCall>
    decreases |docs|
  {
    if docs == [] then []
    else
      var n := Min(EmbedBatchSize, |docs|);
      BatchCalls(c, docs[..n]) + CallsAll(c, docs[n..])
  }

  /** The two sides of one loop iteration: a slice of at most 20 chunks
      taken at `i`, followed by the rest of the run. */
  lemma EmbedAllStep(c: EmbeddingClient, docs: seq<Document>, i: nat, hi: nat)
    requires i < |docs| && hi == Min(i + EmbedBatchSize, |docs|)
    ensures EmbedAll(c, docs[i..]) == EmbedBatch(c, docs[i..hi]) + EmbedAll(c, docs[hi..])
    ensures CallsAll(c, docs[i..]) == BatchCalls(c, docs[i..hi]) + CallsAll(c, docs[hi..])
  {
    assert docs[i..][..hi - i] == docs[i..hi];
    assert docs[i..][hi - i..] == docs[hi..];
  }

  /** The happy path of one slice: every (doc, vector) pair of the zip. */
  method AppendZip(acc: seq<(Document, Vector)>, batchDocs: seq<Document>, batchEmbeddings: seq<Vector>)
    returns (r: seq<(Document, Vector)>)
    ensures r == acc + Zip(batchDocs, batchEmbeddings)
  {
    r := acc;
    var m := Min(|batchDocs|, |batchEmbeddings|);
    for k := 0 to m
      invariant r == acc + Zip(batchDocs[..k], batchEmbeddings[..k])
    {
      r := r + [(batchDocs[k], batchEmbeddings[k])];
    }
    assert Zip(batchDocs[..m], batchEmbeddings[..m]) == Zip(batchDocs, batchEmbeddings);
  }

  /** The fallback of one slice: one `embed_query` per chunk, a raise
      skipping only that chunk. */
  method AppendEach(c: EmbeddingClient, acc: seq<(Document, Vector)>, batchDocs: seq<Document>)
    returns (r: seq<(Document, Vector)>, calls: seq<EmbedCall>)
    ensures r == acc + EmbedEach(c, batchDocs)
    ensures calls == QueryCalls(batchDocs)
  {
    r, calls := acc, [];
    for j := 0 to |batchDocs|
      invariant r + EmbedEach(c, batchDocs[j..]) == acc + EmbedEach(c, batchDocs)
      invariant calls == QueryCalls(batchDocs[..j])
    {
      assert batchDocs[j..][1..] == batchDocs[j + 1..];
      assert QueryCalls(batchDocs[..j + 1]) == QueryCalls(batchDocs[..j]) + [QueryCall(batchDocs[j].pageContent)];
      var text := batchDocs[j].pageContent;
      calls := calls + [QueryCall(text)];
      var individual := c.embedQuery(text);
      if individual.Some? {
        r := r + [(batchDocs[j], individual.value)];
      }
    }
    assert batchDocs[..|batchDocs|] == batchDocs;
  }

  /** One iteration of the batch loop: the batch call, then the zip or,
      when it raises, the per-chunk fallback. */
  method EmbedSlice(c: EmbeddingClient, batchDocs: seq<Document>)
    returns (pairs: seq<(Document, Vector)>, calls: seq<EmbedCall>)
    ensures pairs == EmbedBatch(c, batchDocs)
    ensures calls == BatchCalls(c, batchDocs)
  {
    var batchTexts := Texts(batchDocs);
    calls := [BatchCall(batchTexts)];
    var response := c.embedDocuments(batchTexts);
    if response.Some? {
      pairs := AppendZip([], batchDocs, response.value);
    } else {
      var individualCalls;
      pairs, individualCalls := AppendEach(c, [], batchDocs);
      calls := calls + individualCalls;
    }
  }

  /** `generate_embeddings_batch`. Returns the (document, vector) pairs and
      the calls made to the provider. With no client nothing is called and
      the result is []. Otherwise the pairs and calls are those of the
      reference definition EmbedAll / CallsAll. */
  method GenerateEmbeddingsBatch(embeddings: Option<EmbeddingClient>, documents: seq<Document>)
    returns (allEmbeddings: seq<(Document, Vector)>, calls: seq<EmbedCall>)
    ensures embeddings.None? ==> allEmbeddings == [] && calls == []
    ensures embeddings.Some? ==> allEmbeddings == EmbedAll(embeddings.value, documents)
    ensures embeddings.Some? ==> calls == CallsAll(embeddings.value, documents)
  {
    if embeddings.None? {
      return [], [];
    }
    var c := embeddings.value;
    allEmbeddings, calls := [], [];
    var i := 0;
    assert documents[i..] == documents;
    while i < |documents|
      invariant 0 <= i <= |documents|
      invariant allEmbeddings + EmbedAll(c, documents[i..]) == EmbedAll(c, documents)
      invariant calls + CallsAll(c, documents[i..]) == CallsAll(c, documents)
      decreases |documents| - i
    {
      var hi := Min(i + EmbedBatchSize, |documents|);
      EmbedAllStep(c, documents, i, hi);
      var pairs, batchCalls := EmbedSlice(c, documents[i..hi]);
      AppendAssoc(allEmbeddings, pairs, EmbedAll(c, documents[hi..]));
      AppendAssoc(calls, batchCalls, CallsAll(c, documents[hi..]));
      allEmbeddings := allEmbeddings + pairs;
      calls := calls + batchCalls;
      i := hi;
    }
    assert allEmbeddings + [] == allEmbeddings && calls + [] == calls;
  }

  /** The number of chunks whose individual `embed_query` raises. */
  function FailedQueries(c: EmbeddingClient, docs: seq<Document>): nat
  {
    if docs == [] then 0
    else (if c.embedQuery(docs[0].pageContent).None? then 1 else 0) + FailedQueries(c, docs[1..])
  }

  /** Isolation of per-chunk failures in a failed batch: every chunk whose
      own call succeeds is embedded, in order, and exactly the failing
      chunks are missing (so one failure among 20 leaves 19 results). */
  lemma {:induction false} EmbedEachIsolation(c: EmbeddingClient, docs: seq<Document>)
    ensures |EmbedEach(c, docs)| + FailedQueries(c, docs) == |docs|
    ensures forall k :: 0 <= k < |docs| && c.embedQuery(docs[k].pageContent).Some? ==>
      (docs[k], c.embedQuery(docs[k].pageContent).value) in EmbedEach(c, docs)
    ensures IsSubseq(Firsts(EmbedEach(c, docs)), docs)
  {
    if docs != [] {
      EmbedEachIsolation(c, docs[1..]);
      var head := match c.embedQuery(docs[0].pageContent)
        case Some(v) => [(docs[0], v)]
        case None => [];
      var rest := EmbedEach(c, docs[1..]);
      assert EmbedEach(c, docs) == head + rest;
      FirstsAppend(head, rest);
      assert docs == [docs[0]] + docs[1..];
      if head == [] {
        assert Firsts(EmbedEach(c, docs)) == Firsts(rest);
        SubseqPrepend(Firsts(rest), [docs[0]], docs[1..]);
      } else {
        assert Firsts(head) == [docs[0]];
        SubseqRefl([docs[0]]);
        SubseqConcat(Firsts(head), [docs[0]], Firsts(rest), docs[1..]);
      }
      assert IsSubseq(Firsts(EmbedEach(c, docs)), [docs[0]] + docs[1..]);
      forall k | 0 <= k < |docs| && c.embedQuery(docs[k].pageContent).Some?
        ensures (docs[k], c.embedQuery(docs[k].pageContent).value) in EmbedEach(c, docs)
      {
        if k > 0 {
          assert docs[k] == docs[1..][k - 1];
        }
      }
    }
  }

  /** When a batch call succeeds, the batch's chunks are paired with the
      returned vectors by position, up to the shorter of the two. */
  lemma BatchSuccessPairsByPosition(c: EmbeddingClient, batch: seq<Document>)
    requires c.embedDocuments(Texts(batch)).Some?
    ensures var vs := c.embedDocuments(Texts(batch)).value;
      && |EmbedBatch(c, batch)| == Min(|batch|, |vs|)
      && forall k :: 0 <= k < |EmbedBatch(c, batch)| ==> EmbedBatch(c, batch)[k] == (batch[k], vs[k])
  {
  }

  lemma BatchOrdered(c: EmbeddingClient, batch: seq<Document>)
    ensures |EmbedBatch(c, batch)| <= |batch|
    ensures IsSubseq(Firsts(EmbedBatch(c, batch)), batch)
  {
    match c.embedDocuments(Texts(batch))
    case Some(vs) =>
      var z := Zip(batch, vs);
      assert Firsts(z) <= batch;
      PrefixIsSubseq(Firsts(z), batch);
    case None =>
      EmbedEachIsolation(c, batch);
      SubseqLength(Firsts(EmbedEach(c, batch)), batch);
  }

  /** Output bound and order preservation for the whole run: at most one
      pair per chunk, and the chunks that were embedded appear in their
      original order. */
  lemma {:induction false} EmbedAllOrdered(c: EmbeddingClient, docs: seq<Document>)
    ensures |EmbedAll(c, docs)| <= |docs|
    ensures IsSubseq(Firsts(EmbedAll(c, docs)), docs)
    decreases |docs|
  {
    if docs != [] {
      var n := Min(EmbedBatchSize, |docs|);
      BatchOrdered(c, docs[..n]);
      EmbedAllOrdered(c, docs[n..]);
      var b := EmbedBatch(c, docs[..n]);
      var rest := EmbedAll(c, docs[n..]);
      FirstsAppend(b, rest);
      assert docs[..n] + docs[n..] == docs;
      SubseqConcat(Firsts(b), docs[..n], Firsts(rest), docs[n..]);
    }
  }

  /** A provider that never raises and returns one vector per text. */
  ghost predicate HealthyProvider(c: EmbeddingClient)
  {
    forall ts :: c.embedDocuments(ts).Some? && |c.embedDocuments(ts).value| == |ts|
  }

  /** With a healthy provider no chunk is lost: every chunk is embedded,
      in order, with the vector its batch call returned for it. */
  lemma {:induction false} EmbedAllComplete(c: EmbeddingClient, docs: seq<Document>)
    requires HealthyProvider(c)
    ensures Firsts(EmbedAll(c, docs)) == docs
    decreases |docs|
  {
    if docs != [] {
      var n := Min(EmbedBatchSize, |docs|);
      EmbedAllComplete(c, docs[n..]);
      var b := EmbedBatch(c, docs[..n]);
      assert |c.embedDocuments(Texts(docs[..n])).value| == n;
      assert Firsts(b) == docs[..n];
      FirstsAppend(b, EmbedAll(c, docs[n..]));
      assert docs[..n] + docs[n..] == docs;
    }
  }

  function CountBatchCalls(calls: seq<EmbedCall>): nat
  {
    if calls == [] then 0 else (if calls[0].BatchCall? then 1 else 0) + CountBatchCalls(calls[1..])
  }

  lemma {:induction false} CountBatchCallsAppend(a: seq<EmbedCall>, b: seq<EmbedCall>)
    ensures CountBatchCalls(a + b) == CountBatchCalls(a) + CountBatchCalls(b)
  {
    if a != [] {
      assert (a + b)[0] == a[0];
      assert (a + b)[1..] == a[1..] + b;
      CountBatchCallsAppend(a[1..], b);
      assert CountBatchCalls(a + b) == (if a[0].BatchCall? then 1 else 0) + CountBatchCalls(a[1..] + b);
    } else {
      assert a + b == b;
    }
  }

  lemma {:induction false} QueryCallsNoBatch(docs: seq<Document>)
    ensures CountBatchCalls(QueryCalls(docs)) == 0
  {
    if docs != [] {
      assert QueryCalls(docs)[1..] == QueryCalls(docs[1..]);
      QueryCallsNoBatch(docs[1..]);
    }
  }

  /** Exactly one batch call per slice of 20: ceil(n / 20) batch calls for
      n chunks, whatever the provider answers. */
  lemma {:induction false} OneBatchCallPerSlice(c: EmbeddingClient, docs: seq<Document>)
    ensures CountBatchCalls(CallsAll(c, docs)) == (|docs| + EmbedBatchSize - 1) / EmbedBatchSize
    decreases |docs|
  {
    if docs != [] {
      var n := Min(EmbedBatchSize, |docs|);
      OneBatchCallPerSlice(c, docs[n..]);
      var tail := if c.embedDocuments(Texts(docs[..n])).None? then QueryCalls(docs[..n]) else [];
      QueryCallsNoBatch(docs[..n]);
      CountBatchCallsAppend([BatchCall(Texts(docs[..n]))], tail);
      CountBatchCallsAppend(BatchCalls(c, docs[..n]), CallsAll(c, docs[n..]));
    }
  }

  // ---------------------------------------------------------------------
  // store_documents_in_supabase

  /** One row of the `policy_embeddings` table. `metadata` holds the
      JSON text of the chunk's metadata. */
  datatype EmbeddingRecord = EmbeddingRecord(
    id: string, content: string, embedding: Vector, sourceFile: Value, metadata: string)

  /** The store client: bulk and single inserts (false: the call raised),
      the `similarity_search` RPC and the unfiltered table scan (None: the
      call raised; a response whose data is None is an empty list). */
  datatype StoreClient = StoreClient(
    insertBatch: seq<EmbeddingRecord> -> bool,
    insertOne: EmbeddingRecord -> bool,
    rpc: (Vector, real, int) -> Option<seq<Row>>,
    scan: nat -> Option<seq<Row>>)

  /** The `policy_embeddings` table as the inserts change it. */
  class PolicyTable {
    var rows: seq<EmbeddingRecord>

    constructor ()
      ensures rows == []
    {
      rows := [];
    }
  }

  /** The records for the pairs: one per pair, in order, with the chunk
      text verbatim, the vector, "source_file" from the metadata or
      "unknown", the metadata serialised by `dumps` (json.dumps) and the
      k-th fresh identifier `uuid(k)` (uuid.uuid4 is a parameter). */
  ghost predicate RecordsFor(records: seq<EmbeddingRecord>, docEmbeddings: seq<(Document, Vector)>,
                             uuid: nat -> string, dumps: map<string, Value> -> string)
  {
    && |records| == |docEmbeddings|
    && forall k :: 0 <= k < |records| ==>
      var (doc, embedding) := docEmbeddings[k];
      && records[k].id == uuid(k)
      && records[k].content == doc.pageContent
      && records[k].embedding == embedding
      && records[k].sourceFile == Get(doc.metadata, SourceFileKey, JStr("unknown"))
      && records[k].metadata == dumps(doc.metadata)
  }

  /** The record-building loop of `store_documents_in_supabase`. */
  method BuildRecords(docEmbeddings: seq<(Document, Vector)>, uuid: nat -> string,
                      dumps: map<string, Value> -> string)
    returns (records: seq<EmbeddingRecord>)
    ensures RecordsFor(records, docEmbeddings, uuid, dumps)
  {
    records := [];
    for i := 0 to |docEmbeddings|
      invariant RecordsFor(records, docEmbeddings[..i], uuid, dumps)
    {
      var (doc, embedding) := docEmbeddings[i];
      var record := EmbeddingRecord(uuid(i), doc.pageContent, embedding,
                                    Get(doc.metadata, SourceFileKey, JStr("unknown")), dumps(doc.metadata));
      records := records + [record];
    }
    assert docEmbeddings[..|docEmbeddings|] == docEmbeddings;
  }

  /** The per-record retry of a failed bulk insert. */
  function InsertEach(s: StoreClient, batch: seq<EmbeddingRecord>): seq<EmbeddingRecord>
  {
    if batch == [] then []
    else (if s.insertOne(batch[0]) then [batch[0]] else []) + InsertEach(s, batch[1..])
  }

  /** What one batch of at most 10 adds to the table. A bulk insert is one
      statement, so it adds all of the batch or nothing. */
  function InsertBatch(s: StoreClient, batch: seq<EmbeddingRecord>): seq<EmbeddingRecord>
  {
    if s.insertBatch(batch) then batch else InsertEach(s, batch)
  }

  /** The reference definition of the insert loop. */
  function InsertAll(s: StoreClient, records: seq<EmbeddingRecord>): seq<EmbeddingRecord>
    decreases |records|
  {
    if records == [] then []
    else
      var n := Min(InsertBatchSize, |records|);
      InsertBatch(s, records[..n]) + InsertAll(s, records[n..])
  }

  /** The two sides of one loop iteration: a slice of at most 10 records
      taken at `i`, followed by the rest. */
  lemma InsertAllStep(s: StoreClient, records: seq<EmbeddingRecord>, i: nat, hi: nat)
    requires i < |records| && hi == Min(i + InsertBatchSize, |records|)
    ensures InsertAll(s, records[i..]) == InsertBatch(s, records[i..hi]) + InsertAll(s, records[hi..])
  {
    assert records[i..][..hi - i] == records[i..hi];
    assert records[i..][hi - i..] == records[hi..];
  }

  /** One iteration of the insert loop: the bulk insert, or one insert per
      record when it raises. */
  method InsertSlice(s: StoreClient, table: PolicyTable, batch: seq<EmbeddingRecord>)
    modifies table
    ensures table.rows == old(table.rows) + InsertBatch(s, batch)
  {
    if s.insertBatch(batch) {
      table.rows := table.rows + batch;
    } else {
      for j := 0 to |batch|
        invariant table.rows + InsertEach(s, batch[j..]) == old(table.rows) + InsertEach(s, batch)
      {
        assert batch[j..][1..] == batch[j + 1..];
        if s.insertOne(batch[j]) {
          table.rows := table.rows + [batch[j]];
        }
      }
      assert batch[|batch|..] == [];
    }
  }

  /** `store_documents_in_supabase`. Without a store client the table is
      left alone; otherwise the records built for the pairs (the ghost
      result) are offered in slices of 10 and the rows InsertAll accepts
      are appended. The function returns nothing: how many records were
      written is not reported to the caller. */
  method StoreDocumentsInSupabase(supabase: Option<StoreClient>, table: PolicyTable,
                                  docEmbeddings: seq<(Document, Vector)>, uuid: nat -> string,
                                  dumps: map<string, Value> -> string)
    returns (ghost records: seq<EmbeddingRecord>)
    modifies table
    ensures supabase.None? ==> table.rows == old(table.rows)
    ensures supabase.Some? ==> RecordsFor(records, docEmbeddings, uuid, dumps)
    ensures supabase.Some? ==> table.rows == old(table.rows) + InsertAll(supabase.value, records)
  {
    if supabase.None? {
      return [];
    }
    var s := supabase.value;
    var built := BuildRecords(docEmbeddings, uuid, dumps);
    records := built;
    InsertRecords(s, table, built);
  }

  /** The insert loop of `store_documents_in_supabase`: slices of 10. */
  method InsertRecords(s: StoreClient, table: PolicyTable, records: seq<EmbeddingRecord>)
    modifies table
    ensures table.rows == old(table.rows) + InsertAll(s, records)
  {
    var i := 0;
    ghost var done: seq<EmbeddingRecord> := [];
    assert records[i..] == records;
    while i < |records|
      invariant 0 <= i <= |records|
      invariant table.rows == old(table.rows) + done
      invariant done + InsertAll(s, records[i..]) == InsertAll(s, records)
      decreases |records| - i
    {
      var hi := Min(i + InsertBatchSize, |records|);
      InsertAllStep(s, records, i, hi);
      InsertSlice(s, table, records[i..hi]);
      AppendAssoc(old(table.rows), done, InsertBatch(s, records[i..hi]));
      AppendAssoc(done, InsertBatch(s, records[i..hi]), InsertAll(s, records[hi..]));
      done := done + InsertBatch(s, records[i..hi]);
      i := hi;
    }
    assert done + [] == done;
  }

  /** Isolation of per-record failures in a failed bulk insert: every
      record whose single insert succeeds is written, in order. */
  lemma {:induction false} InsertEachIsolation(s: StoreClient, batch: seq<EmbeddingRecord>)
    ensures IsSubseq(InsertEach(s, batch), batch)
    ensures forall k :: 0 <= k < |batch| && s.insertOne(batch[k]) ==> batch[k] in InsertEach(s, batch)
    ensures forall r :: r in InsertEach(s, batch) ==> r in batch && s.insertOne(r)
  {
    if batch != [] {
      InsertEachIsolation(s, batch[1..]);
      var rest := InsertEach(s, batch[1..]);
      assert batch == [batch[0]] + batch[1..];
      if s.insertOne(batch[0]) {
        assert InsertEach(s, batch) == [batch[0]] + rest;
        SubseqRefl([batch[0]]);
        SubseqConcat([batch[0]], [batch[0]], rest, batch[1..]);
      } else {
        assert InsertEach(s, batch) == rest;
        SubseqPrepend(rest, [batch[0]], batch[1..]);
      }
      assert IsSubseq(InsertEach(s, batch), [batch[0]] + batch[1..]);
      forall k | 0 <= k < |batch| && s.insertOne(batch[k])
        ensures batch[k] in InsertEach(s, batch)
      {
        if k > 0 {
          assert batch[k] == batch[1..][k - 1];
        }
      }
    }
  }

  /** The table gains a subsequence of the records, never more rows than
      records, and never a record twice more often than it was given. */
  lemma {:induction false} InsertAllOrdered(s: StoreClient, records: seq<EmbeddingRecord>)
    ensures IsSubseq(InsertAll(s, records), records)
    ensures |InsertAll(s, records)| <= |records|
    decreases |records|
  {
    if records != [] {
      var n := Min(InsertBatchSize, |records|);
      var b := records[..n];
      InsertAllOrdered(s, records[n..]);
      if s.insertBatch(b) {
        SubseqRefl(b);
      } else {
        InsertEachIsolation(s, b);
      }
      assert b + records[n..] == records;
      SubseqConcat(InsertBatch(s, b), b, InsertAll(s, records[n..]), records[n..]);
      SubseqLength(InsertAll(s, records), records);
    }
  }

  /** With a store whose bulk inserts never raise, every record is written
      in order. */
  lemma {:induction false} InsertAllHealthy(s: StoreClient, records: seq<EmbeddingRecord>)
    requires forall b :: s.insertBatch(b)
    ensures InsertAll(s, records) == records
    decreases |records|
  {
    if records != [] {
      var n := Min(InsertBatchSize, |records|);
      InsertAllHealthy(s, records[n..]);
      assert records[..n] + records[n..] == records;
    }
  }

  // ---------------------------------------------------------------------
  // semantic_search

  /** The score of one scanned row against the query vector: KeyError
      when the row has no "embedding", and `similarity` (the numpy cosine
      arithmetic, None when it raises) otherwise. */
  function ScoreRow(similarity: (Vector, Value) -> Option<real>, q: Vector, row: Row): Option<real>
  {
    if EmbeddingKey in row then similarity(q, row[EmbeddingKey]) else None
  }

  /** The scoring loop of the fallback: any raise aborts the search. */
  function ScoreAllStrict(similarity: (Vector, Value) -> Option<real>, q: Vector, rows: seq<Row>)
    : (r: Option<seq<Scored<Row>>>)
    ensures r.Some? ==> |r.value| == |rows|
    ensures r.Some? ==> forall k :: 0 <= k < |rows| ==>
      ScoreRow(similarity, q, rows[k]).Some? &&
      r.value[k] == Scored(ScoreRow(similarity, q, rows[k]).value, rows[k])
    ensures r.None? <==> exists k :: 0 <= k < |rows| && ScoreRow(similarity, q, rows[k]).None?
  {
    if rows == [] then Some([])
    else
      match ScoreRow(similarity, q, rows[0])
      case None => None
      case Some(x) =>
        match ScoreAllStrict(similarity, q, rows[1..])
        case None =>
          assert forall k :: 1 <= k < |rows| ==> rows[k] == rows[1..][k - 1];
          None
        case Some(rest) =>
          assert forall k :: 1 <= k < |rows| ==> rows[k] == rows[1..][k - 1];
          Some([Scored(x, rows[0])] + rest)
  }

  /** `record.copy()` with the "similarity" key set to the score. */
  function WithSimilarity(ranked: seq<Scored<Row>>): (r: seq<Row>)
    ensures |r| == |ranked|
    ensures forall k :: 0 <= k < |r| ==> r[k] == ranked[k].item[SimilarityKey := JNum(ranked[k].score)]
  {
    seq(|ranked|, k requires 0 <= k < |ranked| => ranked[k].item[SimilarityKey := JNum(ranked[k].score)])
  }

  /** The fallback path as a reference definition: scan up to 1000 rows,
      [] when the scan is empty or anything raises, else the top `limit`
      of the stable descending ranking, each with its similarity. */
  function FallbackSearch(s: StoreClient, similarity: (Vector, Value) -> Option<real>, q: Vector, limit: int)
    : seq<Row>
  {
    match s.scan(ScanWindow)
    case None => []
    case Some(rows) =>
      if rows == [] then []
      else
        match ScoreAllStrict(similarity, q, rows)
        case None => []
        case Some(scored) => WithSimilarity(SliceTo(SortByScoreDesc(scored), limit))
  }

  /** `semantic_search`. The RPC is asked for `limit` matches above 0.7;
      its data is returned unchanged whenever it is non-empty. An RPC that
      raises or returns nothing hands over to FallbackSearch. A missing
      client or a failing query embedding gives []; nothing raises. */
  method SemanticSearch(embeddings: Option<EmbeddingClient>, supabase: Option<StoreClient>,
                        similarity: (Vector, Value) -> Option<real>, query: string, limit: int)
    returns (results: seq<Row>)
    ensures embeddings.None? || supabase.None? ==> results == []
    ensures embeddings.Some? && supabase.Some? && embeddings.value.embedQuery(query).None? ==> results == []
    ensures embeddings.Some? && supabase.Some? && embeddings.value.embedQuery(query).Some? ==>
      var q := embeddings.value.embedQuery(query).value;
      var answer := supabase.value.rpc(q, MatchThreshold, limit);
      if answer.Some? && answer.value != [] then results == answer.value
      else results == FallbackSearch(supabase.value, similarity, q, limit)
  {
    if embeddings.None? || supabase.None? {
      return [];
    }
    var c, s := embeddings.value, supabase.value;
    var queryEmbedding := c.embedQuery(query);
    if queryEmbedding.None? {
      return [];
    }
    var q := queryEmbedding.value;
    var response := s.rpc(q, MatchThreshold, limit);
    if response.Some? && response.value != [] {
      return response.value;
    }
    var allEmbeddings := s.scan(ScanWindow);
    if allEmbeddings.None? || allEmbeddings.value == [] {
      return [];
    }
    var scored := ScoreRecords(similarity, q, allEmbeddings.value);
    if scored.None? {
      return [];
    }
    var similarities := SortByScoreDesc(scored.value);
    results := AttachSimilarity(SliceTo(similarities, limit));
  }

  /** The scoring loop of the fallback; None when a row raises. */
  method ScoreRecords(similarity: (Vector, Value) -> Option<real>, q: Vector, rows: seq<Row>)
    returns (r: Option<seq<Scored<Row>>>)
    ensures r == ScoreAllStrict(similarity, q, rows)
  {
    var similarities: seq<Scored<Row>> := [];
    for i := 0 to |rows|
      invariant |similarities| == i
      invariant forall k :: 0 <= k < i ==>
        ScoreRow(similarity, q, rows[k]).Some? &&
        similarities[k] == Scored(ScoreRow(similarity, q, rows[k]).value, rows[k])
    {
      var record := rows[i];
      if EmbeddingKey !in record {
        assert ScoreRow(similarity, q, rows[i]).None?;
        return None;
      }
      var score := similarity(q, record[EmbeddingKey]);
      if score.None? {
        assert ScoreRow(similarity, q, rows[i]).None?;
        return None;
      }
      similarities := similarities + [Scored(score.value, record)];
    }
    assert similarities == ScoreAllStrict(similarity, q, rows).value;
    return Some(similarities);
  }

  /** The result loop of the fallback: a copy of each ranked row with its
      score under "similarity". */
  method AttachSimilarity(top: seq<Scored<Row>>) returns (results: seq<Row>)
    ensures results == WithSimilarity(top)
  {
    results := [];
    for k := 0 to |top|
      invariant results == WithSimilarity(top[..k])
    {
      var result := top[k].item[SimilarityKey := JNum(top[k].score)];
      results := results + [result];
    }
    assert top[..|top|] == top;
  }

  /** What the fallback returns: the scanned rows, ranked by descending
      score with ties in scan order, cut to `limit`, each a copy of its row
      carrying its score under "similarity". */
  lemma FallbackShape(s: StoreClient, similarity: (Vector, Value) -> Option<real>, q: Vector, limit: int)
    requires s.scan(ScanWindow).Some?
    requires ScoreAllStrict(similarity, q, s.scan(ScanWindow).value).Some?
    ensures exists ranked: seq<Scored<Row>> ::
      && SortedDesc(ranked)
      && (0 <= limit ==> |ranked| <= limit)
      && multiset(ranked) <= multiset(ScoreAllStrict(similarity, q, s.scan(ScanWindow).value).value)
      && FallbackSearch(s, similarity, q, limit) == WithSimilarity(ranked)
  {
    var rows := s.scan(ScanWindow).value;
    var scored := ScoreAllStrict(similarity, q, rows).value;
    TopKProperties(scored, limit);
    var ranked := SliceTo(SortByScoreDesc(scored), limit);
    if rows == [] {
      assert |SortByScoreDesc(scored)| == 0;
    }
    assert FallbackSearch(s, similarity, q, limit) == WithSimilarity(ranked);
  }
}
