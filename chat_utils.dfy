/**
 * Model of the chat service's retrieval and prompt helpers
 * (server/fastapi_service/app/chat_utils.py).
 *
 * `retrieve_context` is the same two-tier search as the embeddings
 * service, except that exceptions outside the RPC call propagate, a
 * string-valued embedding is decoded as JSON first, a record whose
 * embedding cannot be scored is skipped, and the result carries no
 * similarity. `build_prompt` renders the retrieved rows into the fixed
 * instruction template.
 */
module ChatUtils {
  import opened Wrappers
  import opened Seqs
  import opened PyData
  import opened Ranking
  import V = Vectorizer

  /** The exceptions that escape `retrieve_context`. */
  datatype PyError =
    | EmbeddingFailed       // embed_query raised
    | ScanFailed            // the table scan raised
    | MissingEmbeddingKey   // KeyError on record["embedding"]
    | UnboundJson           // UnboundLocalError on `json` in the except clause

  /** The embedding a record is scored on: a string is decoded with
      `parse` (json.loads; None is JSONDecodeError), anything else is used
      as it is. */
  function Decoded(parse: string -> Option<Value>, emb: Value): Option<Value>
  {
    if emb.JStr? then parse(emb.s) else Some(emb)
  }

  /** The score of a record whose "embedding" is present: None when the
      decoding or the numpy arithmetic raises ValueError or TypeError. */
  function RecordScore(similarity: (V.Vector, Value) -> Option<real>, parse: string -> Option<Value>,
                       q: V.Vector, row: Row): Option<real>
    requires V.EmbeddingKey in row
  {
    match Decoded(parse, row[V.EmbeddingKey])
    case None => None
    case Some(v) => similarity(q, v)
  }

  /** The scoring loop with the skip the except clause is there for: a
      record that cannot be scored is left out and the loop goes on; a
      record without "embedding" raises KeyError, which the clause does
      not name. */
  function ScoreRecords(similarity: (V.Vector, Value) -> Option<real>, parse: string -> Option<Value>,
                        q: V.Vector, rows: seq<Row>): Result<seq<Scored<Row>>, PyError>
  {
    if rows == [] then Success([])
    else if V.EmbeddingKey !in rows[0] then Failure(MissingEmbeddingKey)
    else
      match ScoreRecords(similarity, parse, q, rows[1..])
      case Failure(e) => Failure(e)
      case Success(rest) =>
        match RecordScore(similarity, parse, q, rows[0])
        case None => Success(rest)
        case Some(x) => Success([Scored(x, rows[0])] + rest)
  }

  /** The scoring loop as it is written. `import json` inside the loop
      makes `json` a local of the whole function, bound only once a string
      embedding has been decoded (`jsonBound`). The except clause names
      `json.JSONDecodeError`, so any exception raised while `json` is still
      unbound turns into UnboundLocalError instead of being matched. */
  function ScoreRecordsAsWritten(similarity: (V.Vector, Value) -> Option<real>, parse: string -> Option<Value>,
                                 q: V.Vector, rows: seq<Row>, jsonBound: bool): Result<seq<Scored<Row>>, PyError>
  {
    if rows == [] then Success([])
    else if V.EmbeddingKey !in rows[0] then Failure(if jsonBound then MissingEmbeddingKey else UnboundJson)
    else
      var bound := jsonBound || rows[0][V.EmbeddingKey].JStr?;
      match RecordScore(similarity, parse, q, rows[0])
      case None =>
        if bound then ScoreRecordsAsWritten(similarity, parse, q, rows[1..], bound) else Failure(UnboundJson)
      case Some(x) =>
        match ScoreRecordsAsWritten(similarity, parse, q, rows[1..], bound)
        case Failure(e) => Failure(e)
        case Success(rest) => Success([Scored(x, rows[0])] + rest)
  }

  /** Once `json` is bound the loop as written is the intended one. */
  lemma {:induction false} AsWrittenAgreesOnceBound(similarity: (V.Vector, Value) -> Option<real>,
                                                    parse: string -> Option<Value>, q: V.Vector, rows: seq<Row>)
    ensures ScoreRecordsAsWritten(similarity, parse, q, rows, true) == ScoreRecords(similarity, parse, q, rows)
  {
    if rows != [] && V.EmbeddingKey in rows[0] {
      AsWrittenAgreesOnceBound(similarity, parse, q, rows[1..]);
    }
  }

  /** A record set on which the two differ: a record whose embedding is
      `null` (TypeError in numpy) before any string embedding makes the
      search as written raise, where the intended loop skips it and scores
      the next record. */
  lemma UnboundJsonCounterexample()
    ensures var similarity := (v: V.Vector, e: Value) => if e.JArr? then Some(1.0) else None;
      var parse := (s: string) => Some(JArr([JNum(1.0)]));
      var rows := [map[V.EmbeddingKey := JNull], map[V.EmbeddingKey := JStr("[1.0]")]];
      && ScoreRecordsAsWritten(similarity, parse, [1.0], rows, false) == Failure(UnboundJson)
      && ScoreRecords(similarity, parse, [1.0], rows) == Success([Scored(1.0, rows[1])])
  {
    var similarity := (v: V.Vector, e: Value) => if e.JArr? then Some(1.0) else None;
    var parse := (s: string) => Some(JArr([JNum(1.0)]));
    var rows := [map[V.EmbeddingKey := JNull], map[V.EmbeddingKey := JStr("[1.0]")]];
    assert RecordScore(similarity, parse, [1.0], rows[0]) == None;
    assert RecordScore(similarity, parse, [1.0], rows[1]) == Some(1.0);
    assert rows[1..] == [rows[1]];
    assert [rows[1]][1..] == [];
    assert ScoreRecords(similarity, parse, [1.0], [rows[1]][1..]) == Success([]);
    assert ScoreRecords(similarity, parse, [1.0], [rows[1]]) == Success([Scored(1.0, rows[1])] + []);
    assert [Scored(1.0, rows[1])] + [] == [Scored(1.0, rows[1])];
    assert ScoreRecords(similarity, parse, [1.0], rows[1..]) == Success([Scored(1.0, rows[1])]);
  }

  /** The scoring loop raises KeyError exactly when some record lacks
      "embedding", and raises nothing else. */
  lemma {:induction false} ScoreRecordsFailure(similarity: (V.Vector, Value) -> Option<real>,
                                               parse: string -> Option<Value>, q: V.Vector, rows: seq<Row>)
    ensures ScoreRecords(similarity, parse, q, rows).Failure? <==> exists k :: 0 <= k < |rows| && V.EmbeddingKey !in rows[k]
    ensures ScoreRecords(similarity, parse, q, rows).Failure? ==>
      ScoreRecords(similarity, parse, q, rows).error == MissingEmbeddingKey
  {
    if rows != [] {
      ScoreRecordsFailure(similarity, parse, q, rows[1..]);
      assert forall k :: 1 <= k < |rows| ==> rows[k] == rows[1..][k - 1];
      if (exists k :: 0 <= k < |rows[1..]| && V.EmbeddingKey !in rows[1..][k]) {
        var k :| 0 <= k < |rows[1..]| && V.EmbeddingKey !in rows[1..][k];
        assert V.EmbeddingKey !in rows[k + 1];
      }
    }
  }

  /** A successful scoring keeps the scanned records' order, and each entry
      is a scanned record with "embedding", paired with its own score. */
  lemma {:induction false} ScoreRecordsSound(similarity: (V.Vector, Value) -> Option<real>,
                                             parse: string -> Option<Value>, q: V.Vector, rows: seq<Row>)
    requires ScoreRecords(similarity, parse, q, rows).Success?
    ensures var scored := ScoreRecords(similarity, parse, q, rows).value;
      && IsSubseq(Items(scored), rows)
      && (forall e :: e in scored ==> e.item in rows && V.EmbeddingKey in e.item
                                      && RecordScore(similarity, parse, q, e.item) == Some(e.score))
  {
    if rows != [] {
      ScoreRecordsSound(similarity, parse, q, rows[1..]);
      var rest := ScoreRecords(similarity, parse, q, rows[1..]).value;
      assert rows == [rows[0]] + rows[1..];
      match RecordScore(similarity, parse, q, rows[0])
      case None =>
        SubseqPrepend(Items(rest), [rows[0]], rows[1..]);
      case Some(x) =>
        var scored := [Scored(x, rows[0])] + rest;
        assert Items(scored) == [rows[0]] + Items(rest);
        SubseqRefl([rows[0]]);
        SubseqConcat([rows[0]], [rows[0]], Items(rest), rows[1..]);
    }
  }

  /** A successful scoring leaves out no record that can be scored. */
  lemma {:induction false} ScoreRecordsComplete(similarity: (V.Vector, Value) -> Option<real>,
                                                parse: string -> Option<Value>, q: V.Vector, rows: seq<Row>)
    requires ScoreRecords(similarity, parse, q, rows).Success?
    ensures var scored := ScoreRecords(similarity, parse, q, rows).value;
      forall k :: 0 <= k < |rows| && V.EmbeddingKey in rows[k] && RecordScore(similarity, parse, q, rows[k]).Some? ==>
        Scored(RecordScore(similarity, parse, q, rows[k]).value, rows[k]) in scored
  {
    if rows != [] {
      ScoreRecordsComplete(similarity, parse, q, rows[1..]);
      assert forall k :: 1 <= k < |rows| ==> rows[k] == rows[1..][k - 1];
    }
  }

  /** A record that can be scored by nothing is simply not there: removing
      it from the scan changes no result. */
  lemma {:induction false} SkippedRecordIsInvisible(similarity: (V.Vector, Value) -> Option<real>,
                                                    parse: string -> Option<Value>, q: V.Vector,
                                                    before: seq<Row>, bad: Row, after: seq<Row>)
    requires V.EmbeddingKey in bad && RecordScore(similarity, parse, q, bad).None?
    ensures ScoreRecords(similarity, parse, q, before + [bad] + after) == ScoreRecords(similarity, parse, q, before + after)
  {
    if before == [] {
      assert before + [bad] + after == [bad] + after;
      assert ([bad] + after)[1..] == after;
      assert before + after == after;
    } else {
      SkippedRecordIsInvisible(similarity, parse, q, before[1..], bad, after);
      assert (before + [bad] + after)[1..] == before[1..] + [bad] + after;
      assert (before + after)[1..] == before[1..] + after;
      assert (before + [bad] + after)[0] == before[0] && (before + after)[0] == before[0];
    }
  }

  /** `[r for _, r in scored]`: the records of a ranking, without scores. */
  function Items(scored: seq<Scored<Row>>): (r: seq<Row>)
    ensures |r| == |scored| && forall k :: 0 <= k < |scored| ==> r[k] == scored[k].item
  {
    seq(|scored|, k requires 0 <= k < |scored| => scored[k].item)
  }

  /** The reference definition of the fallback: raise when the scan or
      the scoring raises, [] on an empty scan, else the records of the top
      `topK` of the stable descending ranking. */
  function FallbackContext(s: V.StoreClient, similarity: (V.Vector, Value) -> Option<real>,
                           parse: string -> Option<Value>, q: V.Vector, topK: int): Result<seq<Row>, PyError>
  {
    match s.scan(V.ScanWindow)
    case None => Failure(ScanFailed)
    case Some(rows) =>
      if rows == [] then Success([])
      else
        match ScoreRecords(similarity, parse, q, rows)
        case Failure(e) => Failure(e)
        case Success(scored) => Success(Items(SliceTo(SortByScoreDesc(scored), topK)))
  }

  /** `pre` in front of a successful scoring; a raise stays a raise. */
  function Prefixed(pre: seq<Scored<Row>>, r: Result<seq<Scored<Row>>, PyError>): Result<seq<Scored<Row>>, PyError>
  {
    match r
    case Failure(e) => Failure(e)
    case Success(rest) => Success(pre + rest)
  }

  /** One record of the scoring loop, seen from the record at `i`. */
  lemma ScoreRecordsStep(similarity: (V.Vector, Value) -> Option<real>, parse: string -> Option<Value>,
                         q: V.Vector, rows: seq<Row>, i: nat)
    requires i < |rows|
    ensures V.EmbeddingKey !in rows[i] ==> ScoreRecords(similarity, parse, q, rows[i..]) == Failure(MissingEmbeddingKey)
    ensures V.EmbeddingKey in rows[i] ==>
      ScoreRecords(similarity, parse, q, rows[i..]) ==
        Prefixed(if RecordScore(similarity, parse, q, rows[i]).Some?
                 then [Scored(RecordScore(similarity, parse, q, rows[i]).value, rows[i])] else [],
                 ScoreRecords(similarity, parse, q, rows[i + 1..]))
  {
    assert rows[i..][0] == rows[i] && rows[i..][1..] == rows[i + 1..];
    var tail := ScoreRecords(similarity, parse, q, rows[i + 1..]);
    if V.EmbeddingKey in rows[i] && tail.Success? && RecordScore(similarity, parse, q, rows[i]).None? {
      assert [] + tail.value == tail.value;
    }
  }

  /** The scoring loop of `retrieve_context`, with the intended skip. */
  method ScoreLoop(similarity: (V.Vector, Value) -> Option<real>, parse: string -> Option<Value>,
                   q: V.Vector, rows: seq<Row>) returns (r: Result<seq<Scored<Row>>, PyError>)
    ensures r == ScoreRecords(similarity, parse, q, rows)
  {
    var scored: seq<Scored<Row>> := [];
    var i := 0;
    assert rows[i..] == rows;
    assert Prefixed([], ScoreRecords(similarity, parse, q, rows)) == ScoreRecords(similarity, parse, q, rows) by {
      var whole := ScoreRecords(similarity, parse, q, rows);
      if whole.Success? {
        assert [] + whole.value == whole.value;
      }
    }
    while i < |rows|
      invariant 0 <= i <= |rows|
      invariant ScoreRecords(similarity, parse, q, rows) == Prefixed(scored, ScoreRecords(similarity, parse, q, rows[i..]))
      decreases |rows| - i
    {
      var record := rows[i];
      ScoreRecordsStep(similarity, parse, q, rows, i);
      if V.EmbeddingKey !in record {
        return Failure(MissingEmbeddingKey);
      }
      ghost var tail := ScoreRecords(similarity, parse, q, rows[i + 1..]);
      var embData := record[V.EmbeddingKey];
      var sim: Option<real> := None;
      if embData.JStr? {
        var parsed := parse(embData.s);
        if parsed.Some? {
          sim := similarity(q, parsed.value);
        }
      } else {
        sim := similarity(q, embData);
      }
      assert sim == RecordScore(similarity, parse, q, record);
      if sim.Some? {
        var entry := Scored(sim.value, record);
        if tail.Success? {
          assert (scored + [entry]) + tail.value == scored + ([entry] + tail.value);
        }
        scored := scored + [entry];
      }
      i := i + 1;
    }
    assert rows[i..] == [];
    assert scored + [] == scored;
    return Success(scored);
  }

  /** `retrieve_context`. A failing query embedding, a failing scan and a
      KeyError propagate; an RPC that raises is ignored. Truthy RPC data is
      returned as it is; an empty answer falls through to the scan just
      as a raise does. */
  method RetrieveContext(query: string, topK: int, embeddings: V.EmbeddingClient, supabase: V.StoreClient,
                         similarity: (V.Vector, Value) -> Option<real>, parse: string -> Option<Value>)
    returns (r: Result<seq<Row>, PyError>)
    ensures embeddings.embedQuery(query).None? ==> r == Failure(EmbeddingFailed)
    ensures embeddings.embedQuery(query).Some? ==>
      var q := embeddings.embedQuery(query).value;
      var answer := supabase.rpc(q, V.MatchThreshold, topK);
      if answer.Some? && answer.value != [] then r == Success(answer.value)
      else r == FallbackContext(supabase, similarity, parse, q, topK)
  {
    var queryEmbedding := embeddings.embedQuery(query);
    if queryEmbedding.None? {
      return Failure(EmbeddingFailed);
    }
    var q := queryEmbedding.value;
    var response := supabase.rpc(q, V.MatchThreshold, topK);
    if response.Some? && response.value != [] {
      return Success(response.value);
    }
    var allEmbeddings := supabase.scan(V.ScanWindow);
    if allEmbeddings.None? {
      return Failure(ScanFailed);
    }
    if allEmbeddings.value == [] {
      return Success([]);
    }
    var scored := ScoreLoop(similarity, parse, q, allEmbeddings.value);
    if scored.Failure? {
      return Failure(scored.error);
    }
    var ranked := SortByScoreDesc(scored.value);
    var top := SliceTo(ranked, topK);
    var contexts: seq<Row> := [];
    for k := 0 to |top|
      invariant contexts == Items(top[..k])
    {
      contexts := contexts + [top[k].item];
    }
    assert top[..|top|] == top;
    return Success(contexts);
  }

  /** What a successful fallback returns: at most `topK` scanned records,
      each with a score, ranked by descending score, unchanged (no
      similarity key is added). */
  lemma FallbackContextShape(s: V.StoreClient, similarity: (V.Vector, Value) -> Option<real>,
                             parse: string -> Option<Value>, q: V.Vector, topK: int)
    requires FallbackContext(s, similarity, parse, q, topK).Success?
    ensures s.scan(V.ScanWindow).Some?
    ensures exists ranked: seq<Scored<Row>> ::
      && SortedDesc(ranked)
      && (0 <= topK ==> |ranked| <= topK)
      && (forall e :: e in ranked ==> e.item in s.scan(V.ScanWindow).value
                                      && V.EmbeddingKey in e.item
                                      && RecordScore(similarity, parse, q, e.item) == Some(e.score))
      && FallbackContext(s, similarity, parse, q, topK).value == Items(ranked)
  {
    var rows := s.scan(V.ScanWindow).value;
    if rows == [] {
      var ranked: seq<Scored<Row>> := [];
      assert FallbackContext(s, similarity, parse, q, topK).value == Items(ranked);
    } else {
      var scored := ScoreRecords(similarity, parse, q, rows).value;
      ScoreRecordsSound(similarity, parse, q, rows);
      TopKProperties(scored, topK);
      var ranked := SliceTo(SortByScoreDesc(scored), topK);
      MultisetMembers(ranked, scored);
      assert FallbackContext(s, similarity, parse, q, topK).value == Items(ranked);
      forall e | e in ranked
        ensures e.item in rows && V.EmbeddingKey in e.item && RecordScore(similarity, parse, q, e.item) == Some(e.score)
      {
        assert e in scored;
      }
      assert SortedDesc(ranked) && (0 <= topK ==> |ranked| <= topK);
    }
  }

  lemma MultisetMembers(xs: seq<Scored<Row>>, ys: seq<Scored<Row>>)
    requires multiset(xs) <= multiset(ys)
    ensures forall x :: x in xs ==> x in ys
  {
    forall x | x in xs
      ensures x in ys
    {
      assert x in multiset(xs);
    }
  }

  // ---------------------------------------------------------------------
  // build_prompt

  /** `str(v)` for the values a context row holds: a string stands for
      itself, None, True and False print as Python does, and the printing
      of numbers, lists and dicts is the parameter `showOther`. */
  function Show(v: Value, showOther: Value -> string): string
  {
    match v
    case JStr(s) => s
    case JNull => "None"
    case JBool(b) => if b then "True" else "False"
    case _ => showOther(v)
  }

  /** a + b + c + d + e, seen piece by piece. */
  predicate Pieces5(r: string, a: string, b: string, c: string, d: string, e: string)
  {
    && |r| == |a| + |b| + |c| + |d| + |e|
    && r[..|a|] == a
    && r[|a|..|a| + |b|] == b
    && r[|a| + |b|..|a| + |b| + |c|] == c
    && r[|a| + |b| + |c|..|a| + |b| + |c| + |d|] == d
    && r[|a| + |b| + |c| + |d|..] == e
  }

  lemma Pieces5Concat(a: string, b: string, c: string, d: string, e: string)
    ensures Pieces5(a + b + c + d + e, a, b, c, d, e)
  {
    var r := a + b + c + d + e;
    assert r[..|a|] == a;
    assert r[|a|..|a| + |b|] == b;
    assert r[|a| + |b|..|a| + |b| + |c|] == c;
    assert r[|a| + |b| + |c|..|a| + |b| + |c| + |d|] == d;
  }

  const SourceLabel := "Source: "
  const ContentLabel := "\nContent: "

  /** One context as the prompt shows it: "Source: ", the source file,
      a newline and "Content: ", the content; a missing key shows as "". */
  function RenderContext(c: Row, showOther: Value -> string): (r: string)
    ensures Pieces5(r, SourceLabel, Show(Get(c, V.SourceFileKey, JStr("")), showOther),
                    ContentLabel, Show(Get(c, "content", JStr("")), showOther), "")
  {
    var source := Show(Get(c, V.SourceFileKey, JStr("")), showOther);
    var content := Show(Get(c, "content", JStr("")), showOther);
    Pieces5Concat(SourceLabel, source, ContentLabel, content, "");
    assert SourceLabel + source + ContentLabel + content + "" == SourceLabel + source + ContentLabel + content;
    SourceLabel + source + ContentLabel + content
  }

  /** `sep.join(parts)`. */
  /** `s` occurs in `block` starting at position `at`. */
  predicate SpanIs(block: string, at: nat, s: string)
  {
    at + |s| <= |block| && block[at..at + |s|] == s
  }

  function Join(sep: string, parts: seq<string>): string
  {
    if parts == [] then []
    else if |parts| == 1 then parts[0]
    else parts[0] + sep + Join(sep, parts[1..])
  }

  /** Where `parts[k]` begins in `Join(sep, parts)`. */
  function Offset(sep: string, parts: seq<string>, k: nat): nat
    requires k <= |parts|
  {
    if k == 0 then 0 else Offset(sep, parts, k - 1) + |parts[k - 1]| + |sep|
  }

  lemma {:induction false} OffsetShift(sep: string, parts: seq<string>, k: nat)
    requires 1 <= k <= |parts|
    ensures Offset(sep, parts, k) == |parts[0]| + |sep| + Offset(sep, parts[1..], k - 1)
  {
    if k > 1 {
      OffsetShift(sep, parts, k - 1);
      assert parts[k - 1] == parts[1..][k - 2];
    }
  }

  /** The joined string ends where the last part ends. */
  lemma {:induction false} JoinLength(sep: string, parts: seq<string>)
    requires parts != []
    ensures |Join(sep, parts)| == Offset(sep, parts, |parts| - 1) + |parts[|parts| - 1]|
  {
    if |parts| > 1 {
      JoinLength(sep, parts[1..]);
      OffsetShift(sep, parts, |parts| - 1);
    }
  }

  /** Part `k` of a join sits at its offset, so the parts appear in order
      and unchanged. */
  lemma {:induction false} JoinPartAt(sep: string, parts: seq<string>, k: nat)
    requires k < |parts|
    ensures SpanIs(Join(sep, parts), Offset(sep, parts, k), parts[k])
  {
    if |parts| > 1 {
      var rest := Join(sep, parts[1..]);
      var j := Join(sep, parts);
      assert j == parts[0] + sep + rest;
      if k == 0 {
        AppendAssoc(parts[0], sep, rest);
        SliceLeft(parts[0], sep + rest, 0, |parts[0]|);
      } else {
        JoinPartAt(sep, parts[1..], k - 1);
        OffsetShift(sep, parts, k);
        var h := |parts[0]| + |sep|;
        var o := Offset(sep, parts[1..], k - 1);
        assert parts[k] == parts[1..][k - 1];
        SliceRight(parts[0] + sep, rest, h + o, h + o + |parts[k]|);
      }
    }
  }

  /** Between parts `k` and `k + 1` of a join there is exactly `sep`. */
  lemma {:induction false} JoinSeparatorAt(sep: string, parts: seq<string>, k: nat)
    requires k + 1 < |parts|
    ensures SpanIs(Join(sep, parts), Offset(sep, parts, k) + |parts[k]|, sep)
  {
    var rest := Join(sep, parts[1..]);
    var j := Join(sep, parts);
    assert j == parts[0] + sep + rest;
    OffsetShift(sep, parts, k + 1);
    if k == 0 {
      SliceRight(parts[0], sep, |parts[0]|, |parts[0]| + |sep|);
      SliceLeft(parts[0] + sep, rest, |parts[0]|, |parts[0]| + |sep|);
    } else {
      JoinSeparatorAt(sep, parts[1..], k - 1);
      OffsetShift(sep, parts, k);
      var h := |parts[0]| + |sep|;
      var o := Offset(sep, parts[1..], k - 1);
      assert parts[k] == parts[1..][k - 1];
      var o2 := Offset(sep, parts[1..], k);
      SliceRight(parts[0] + sep, rest, h + o + |parts[k]|, h + o2);
    }
  }

  /** The blank line between two rendered contexts. */
  const Blank: string := "\n\n"

  /** The block the prompt embeds: the rendered contexts joined by a blank
      line, in the order retrieved. */
  function ContextBlock(contexts: seq<Row>, showOther: Value -> string): (r: string)
    ensures contexts == [] ==> r == []
    ensures |contexts| == 1 ==> r == RenderContext(contexts[0], showOther)
  {
    Join(Blank, Rendered(contexts, showOther))
  }

  function Rendered(contexts: seq<Row>, showOther: Value -> string): (r: seq<string>)
    ensures |r| == |contexts|
  {
    if contexts == [] then []
    else [RenderContext(contexts[0], showOther)] + Rendered(contexts[1..], showOther)
  }

  /** Part `k` of the block is context `k`, rendered. */
  lemma {:induction false} RenderedAt(contexts: seq<Row>, showOther: Value -> string, k: nat)
    requires k < |contexts|
    ensures Rendered(contexts, showOther)[k] == RenderContext(contexts[k], showOther)
  {
    if k > 0 {
      RenderedAt(contexts[1..], showOther, k - 1);
    }
  }

  /** Context `k` appears in the block at its offset. */
  lemma ContextInBlock(contexts: seq<Row>, showOther: Value -> string, k: nat)
    requires k < |contexts|
    ensures SpanIs(ContextBlock(contexts, showOther), Offset(Blank, Rendered(contexts, showOther), k),
                   RenderContext(contexts[k], showOther))
  {
    JoinPartAt(Blank, Rendered(contexts, showOther), k);
    RenderedAt(contexts, showOther, k);
  }

  /** A blank line follows every context but the last. */
  lemma BlankAfterContext(contexts: seq<Row>, showOther: Value -> string, k: nat)
    requires k + 1 < |contexts|
    ensures var parts := Rendered(contexts, showOther);
      SpanIs(ContextBlock(contexts, showOther), Offset(Blank, parts, k) + |parts[k]|, Blank)
  {
    JoinSeparatorAt(Blank, Rendered(contexts, showOther), k);
  }

  const Preamble: string :=
    "You are a knowledgeable financial compliance expert. Based on the provided context from regulatory documents, "
    + "provide a comprehensive and detailed answer to the user's question. \n\n"
    + "Include specific requirements, procedures, and any relevant guidelines mentioned in the context. "
    + "Structure your response with clear explanations and cite the relevant source documents when applicable.\n\n"
    + "Context:\n"
  const QuestionLead: string := "\n\nQuestion: "
  const Closing: string :=
    "\n\nPlease provide a detailed answer that thoroughly addresses the question using the information from the context above:"

  /** `build_prompt`: the instructions ending in "Context:\n", then the
      context block, then a blank line and "Question: ", then the query,
      then the closing request. */
  function BuildPrompt(query: string, contexts: seq<Row>, showOther: Value -> string): (prompt: string)
    ensures Pieces5(prompt, Preamble, ContextBlock(contexts, showOther), QuestionLead, query, Closing)
  {
    var block := ContextBlock(contexts, showOther);
    Pieces5Concat(Preamble, block, QuestionLead, query, Closing);
    Preamble + block + QuestionLead + query + Closing
  }
}
