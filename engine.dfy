/**
  The search engine of src/engine.py: one class holding the session's search
  configuration and its collaborators, and the formatting of retrieved
  records into the context string that is either shown as it is or handed
  to the GPT summariser.
 */
module Engine {
  import opened Wrappers

  /**
    An exception raised while a request runs. The interactive loop swallows a
    ValueError, ends the session normally on a KeyboardInterrupt (a Ctrl-C
    while the request blocks), and lets anything else out of `run`.
   */
  datatype Raised = ValueError | KeyboardInterrupt | OtherException

  /**
    One field of a projected document: the key is missing, it is stored with
    a null value, or it holds a string.
   */
  datatype FieldValue = Missing | Null | Text(value: string)

  /** A record as projected by the vector search: four text fields and the similarity score. */
  datatype Record = Record(
    title: FieldValue,
    authors: FieldValue,
    abstractText: FieldValue,
    journalRef: FieldValue,
    score: real)

  /** What a reader of the context sees of one record: the four field texts, placeholders filled in. */
  datatype Shown = Shown(title: string, authors: string, abstractText: string, journalRef: string)

  type Embedding = seq<real>

  /** The embedding model: query text to vector. */
  type Embedder = string -> Result<Embedding, Raised>

  /** The vector index: stored collection, query vector, candidate pool size and result limit to an ordered list of records. */
  type VectorIndex = (seq<Record>, Embedding, int, int) -> Result<seq<Record>, Raised>

  /** The GPT client's prompt call: (query, context) to an answer. */
  type Summarizer = (string, string) -> Result<string, Raised>

  const DEFAULT_NUM_RESULTS := 3
  const DEFAULT_NUM_CANDIDATES := 150

  /** Text written in place of a missing field. */
  const PLACEHOLDER := "N/A"

  /** How Python's f-string shows a null value. */
  const NULL_TEXT := "None"

  const TITLE_LABEL := "Title: "
  const AUTHORS_LABEL := "Authors: "
  const ABSTRACT_LABEL := "Abstract: "
  const JOURNAL_LABEL := "Journal reference: "

  /**
    The text shown for one field: the placeholder only when the key is
    missing; a stored null is shown as `None`, a string verbatim.
   */
  function FieldText(f: FieldValue): (s: string)
    ensures f.Missing? ==> s == PLACEHOLDER
    ensures f.Null? ==> s == NULL_TEXT
    ensures f.Text? ==> s == f.value
  {
    match f
    case Missing => PLACEHOLDER
    case Null => NULL_TEXT
    case Text(v) => v
  }

  function ShownOf(r: Record): (v: Shown) {
    Shown(FieldText(r.title), FieldText(r.authors), FieldText(r.abstractText), FieldText(r.journalRef))
  }

  function ShownAll(rs: seq<Record>): (ss: seq<Shown>)
    ensures |ss| == |rs|
    ensures forall i :: 0 <= i < |rs| ==> ss[i] == ShownOf(rs[i])
  {
    if rs == [] then [] else [ShownOf(rs[0])] + ShownAll(rs[1..])
  }

  function Line(heading: string, value: string): (line: string) {
    heading + value + "\n"
  }

  /** The four-line block of one record, closed by a blank line. */
  function Block(r: Record): (b: string)
    ensures |b| > 0
  {
    Line(TITLE_LABEL, FieldText(r.title))
    + (Line(AUTHORS_LABEL, FieldText(r.authors))
    + (Line(ABSTRACT_LABEL, FieldText(r.abstractText))
    + (Line(JOURNAL_LABEL, FieldText(r.journalRef))
    + "\n")))
  }

  /** The context string: the blocks of the records, in the order the search returned them. */
  function Context(rs: seq<Record>): (c: string) {
    if rs == [] then "" else Block(rs[0]) + Context(rs[1..])
  }

  /** The context is empty exactly when the search found nothing. */
  lemma ContextEmptyIff(rs: seq<Record>)
    ensures Context(rs) == "" <==> rs == []
  {
  }

  /** Formatting distributes over concatenation of result lists. */
  lemma {:induction false} ContextAppend(xs: seq<Record>, ys: seq<Record>)
    ensures Context(xs + ys) == Context(xs) + Context(ys)
  {
    if xs == [] {
      assert xs + ys == ys;
    } else {
      assert (xs + ys)[1..] == xs[1..] + ys;
      ContextAppend(xs[1..], ys);
    }
  }

  /** One more record adds exactly its block at the end of the context. */
  lemma ContextSnoc(rs: seq<Record>, r: Record)
    ensures Context(rs + [r]) == Context(rs) + Block(r)
  {
    ContextAppend(rs, [r]);
    assert [r][1..] == [];
    assert Context([r]) == Block(r) + "";
  }

  /** The score never reaches the context: records that agree on their four fields format identically. */
  lemma {:induction false} ContextIgnoresScore(rs: seq<Record>, qs: seq<Record>)
    requires |rs| == |qs|
    requires forall i :: 0 <= i < |rs| ==> rs[i].(score := 0.0) == qs[i].(score := 0.0)
    ensures Context(rs) == Context(qs)
  {
    if rs != [] {
      assert rs[0].title == qs[0].title && rs[0].authors == qs[0].authors;
      assert rs[0].abstractText == qs[0].abstractText && rs[0].journalRef == qs[0].journalRef;
      ContextIgnoresScore(rs[1..], qs[1..]);
    }
  }

  // ---------------------------------------------------------------------
  // A reader of the context: splits it back into lines and blocks.
  // ---------------------------------------------------------------------

  /** The text up to the first newline and the text after it; None when there is no newline. */
  function TakeLine(s: string): (p: Option<(string, string)>)
    ensures p.Some? ==> |p.value.1| < |s|
  {
    if s == [] then None
    else if s[0] == '\n' then Some(([], s[1..]))
    else match TakeLine(s[1..])
      case None => None
      case Some(lr) => Some(([s[0]] + lr.0, lr.1))
  }

  /** One line that starts with `heading`: the text after the heading and the remaining input. */
  function TakeField(heading: string, s: string): (p: Option<(string, string)>)
    ensures p.Some? ==> |p.value.1| < |s|
  {
    match TakeLine(s)
    case None => None
    case Some(lr) => if heading <= lr.0 then Some((lr.0[|heading|..], lr.1)) else None
  }

  /** One block: the four labelled lines in their fixed order, then a blank line. */
  function ParseBlock(s: string): (p: Option<(Shown, string)>)
    ensures p.Some? ==> |p.value.1| < |s|
  {
    match TakeField(TITLE_LABEL, s)
    case None => None
    case Some(t) =>
      match TakeField(AUTHORS_LABEL, t.1)
      case None => None
      case Some(a) =>
        match TakeField(ABSTRACT_LABEL, a.1)
        case None => None
        case Some(b) =>
          match TakeField(JOURNAL_LABEL, b.1)
          case None => None
          case Some(j) =>
            match TakeLine(j.1)
            case None => None
            case Some(e) => if e.0 == "" then Some((Shown(t.0, a.0, b.0, j.0), e.1)) else None
  }

  /** The whole context, block after block; None when it is not a sequence of blocks. */
  function ParseContext(s: string): (p: Option<seq<Shown>>)
    decreases |s|
  {
    if s == [] then Some([])
    else match ParseBlock(s)
      case None => None
      case Some(br) =>
        match ParseContext(br.1)
        case None => None
        case Some(rest) => Some([br.0] + rest)
  }

  predicate NoNewline(v: string) {
    '\n' !in v
  }

  predicate SingleLineFields(r: Record) {
    NoNewline(FieldText(r.title)) && NoNewline(FieldText(r.authors))
    && NoNewline(FieldText(r.abstractText)) && NoNewline(FieldText(r.journalRef))
  }

  lemma {:induction false} TakeLineAppend(x: string, rest: string)
    requires NoNewline(x)
    ensures TakeLine(x + "\n" + rest) == Some((x, rest))
  {
    if x == [] {
      assert x + "\n" + rest == ['\n'] + rest;
    } else {
      assert (x + "\n" + rest)[1..] == x[1..] + "\n" + rest;
      TakeLineAppend(x[1..], rest);
      assert [x[0]] + x[1..] == x;
    }
  }

  lemma TakeFieldLine(heading: string, v: string, rest: string)
    requires NoNewline(heading) && NoNewline(v)
    ensures TakeField(heading, Line(heading, v) + rest) == Some((v, rest))
  {
    assert Line(heading, v) + rest == (heading + v) + "\n" + rest;
    assert NoNewline(heading + v) by {
      assert forall i :: 0 <= i < |heading + v| ==> (heading + v)[i] == (if i < |heading| then heading[i] else v[i - |heading|]);
    }
    TakeLineAppend(heading + v, rest);
    assert heading <= heading + v;
    assert (heading + v)[|heading|..] == v;
  }

  lemma ParseBlockAppend(r: Record, rest: string)
    requires SingleLineFields(r)
    ensures ParseBlock(Block(r) + rest) == Some((ShownOf(r), rest))
  {
    var t, a, b, j := FieldText(r.title), FieldText(r.authors), FieldText(r.abstractText), FieldText(r.journalRef);
    var s4 := Line(JOURNAL_LABEL, j) + ("\n" + rest);
    var s3 := Line(ABSTRACT_LABEL, b) + s4;
    var s2 := Line(AUTHORS_LABEL, a) + s3;
    var s1 := Line(TITLE_LABEL, t) + s2;
    assert Block(r) + rest == s1;
    TakeFieldLine(TITLE_LABEL, t, s2);
    TakeFieldLine(AUTHORS_LABEL, a, s3);
    TakeFieldLine(ABSTRACT_LABEL, b, s4);
    TakeFieldLine(JOURNAL_LABEL, j, "\n" + rest);
    TakeLineAppend("", rest);
    assert "" + "\n" + rest == "\n" + rest;
  }

  /**
    Round trip: reading the context back gives one block per record, in the
    search's order, each showing the record's fields with placeholders.
   */
  lemma {:induction false} ParseContextRoundTrip(rs: seq<Record>)
    requires forall i :: 0 <= i < |rs| ==> SingleLineFields(rs[i])
    ensures ParseContext(Context(rs)) == Some(ShownAll(rs))
  {
    if rs != [] {
      ParseBlockAppend(rs[0], Context(rs[1..]));
      ParseContextRoundTrip(rs[1..]);
    }
  }

  /** The state and collaborators one request depends on. */
  datatype EngineView = EngineView(
    collection: seq<Record>,
    embed: Embedder,
    search: VectorIndex,
    gptClient: Option<Summarizer>,
    numCandidates: int,
    maxResults: int)

  /** `_vector_search`: embed the query, then search the collection with the configured pool size and limit. */
  function Retrieve(v: EngineView, query: string): (r: Result<seq<Record>, Raised>)
    ensures v.embed(query).Failure? ==> r == Failure(v.embed(query).error)
    ensures v.embed(query).Success? ==> r == v.search(v.collection, v.embed(query).value, v.numCandidates, v.maxResults)
  {
    match v.embed(query)
    case Failure(e) => Failure(e)
    case Success(q) => v.search(v.collection, q, v.numCandidates, v.maxResults)
  }

  /** What semantic_search returns or raises for a query in a given mode. */
  function Answer(v: EngineView, query: string, useGpt: bool): (r: Result<string, Raised>) {
    match Retrieve(v, query)
    case Failure(e) => Failure(e)
    case Success(rs) =>
      var context := Context(rs);
      if v.gptClient.Some? && useGpt then v.gptClient.value(query, context) else Success(context)
  }

  /**
    The dispatch rule: a retrieval failure propagates; otherwise the answer is
    the context itself, unless a client exists and GPT mode is on, in which
    case it is the summariser's answer for the query and that same context,
    also when no record was found.
   */
  lemma AnswerDispatch(v: EngineView, query: string, useGpt: bool)
    ensures Retrieve(v, query).Failure? ==> Answer(v, query, useGpt) == Failure(Retrieve(v, query).error)
    ensures Retrieve(v, query).Success? && (v.gptClient.None? || !useGpt)
      ==> Answer(v, query, useGpt) == Success(Context(Retrieve(v, query).value))
    ensures Retrieve(v, query).Success? && v.gptClient.Some? && useGpt
      ==> Answer(v, query, useGpt) == v.gptClient.value(query, Context(Retrieve(v, query).value))
    ensures Retrieve(v, query) == Success([]) && v.gptClient.Some? && useGpt
      ==> Answer(v, query, useGpt) == v.gptClient.value(query, "")
  {
  }

  class SearchEngine {
    /**
      The stored articles (the "articles" collection of the "embeddings" database).
      Stored documents carry no score (the index computes it per search) and
      their embedding vectors are the index's business, so the field's value
      in a stored record means nothing.
     */
    var collection: seq<Record>
    const embed: Embedder
    const search: VectorIndex
    const gptClient: Option<Summarizer>
    const numCandidates: int
    const maxResults: int

    constructor (stored: seq<Record>, embed: Embedder, search: VectorIndex,
                 gptClient: Option<Summarizer> := None,
                 numCandidates: int := DEFAULT_NUM_CANDIDATES,
                 maxResults: int := DEFAULT_NUM_RESULTS)
      ensures collection == stored
      ensures this.embed == embed && this.search == search && this.gptClient == gptClient
      ensures this.numCandidates == numCandidates && this.maxResults == maxResults
    {
      this.collection := stored;
      this.embed := embed;
      this.search := search;
      this.gptClient := gptClient;
      this.numCandidates := numCandidates;
      this.maxResults := maxResults;
    }

    /** Replace-all load: clear the collection, then insert the given records. */
    method FillEmbeddingDatabase(records: seq<Record>)
      modifies this
      ensures collection == records
    {
      collection := [];
      collection := collection + records;
    }

    /** The engine as a value: what every request reads. */
    function View(): (v: EngineView)
      reads this
      ensures v.collection == collection && v.numCandidates == numCandidates && v.maxResults == maxResults
      ensures v.embed == embed && v.search == search && v.gptClient == gptClient
    {
      EngineView(collection, embed, search, gptClient, numCandidates, maxResults)
    }

    /** `semantic_search`: concatenate one block per record, then return the context or the summary. */
    method SemanticSearch(query: string, useGpt: bool) returns (r: Result<string, Raised>)
      ensures r == Answer(View(), query, useGpt)
    {
      var e := embed(query);
      if e.Failure? {
        return Failure(e.error);
      }
      var found := search(collection, e.value, numCandidates, maxResults);
      if found.Failure? {
        return Failure(found.error);
      }
      var results := found.value;
      var response := "";
      for i := 0 to |results|
        invariant response == Context(results[..i])
      {
        ContextSnoc(results[..i], results[i]);
        assert results[..i + 1] == results[..i] + [results[i]];
        response := response + Block(results[i]);
      }
      assert results[..|results|] == results;
      r := if gptClient.Some? && useGpt then gptClient.value(query, response) else Success(response);
    }
  }
}
