/** The two paths of hello.py that talk to the outside world: indexing a
    document's chunks (`get_vectorstore`) and answering a question
    (`embed_question` and `handle_userinput`). The embedding, vector index
    and chat-completion services are given as functions; every request sent
    to them is recorded, in order, in a trace. */
module Pipeline {
  import opened Wrappers
  import opened IndexRecords
  import opened Prompt
  import opened Template

  /** The fixed request parameters of the source. */
  const EmbeddingModel := "text-embedding-ada-002"
  const ChatModel := "gpt-3.5-turbo-16k-0613"
  const TopK := 16
  const MaxTokens := 512
  const Completions := 1

  datatype Role = System | User
  datatype Message = Message(role: Role, content: string)

  /** A chat-completion request: model, messages, `max_tokens` and `n`. */
  datatype ChatRequest = ChatRequest(model: string, messages: seq<Message>, maxTokens: nat, n: nat)

  /** One request sent to an external service. */
  datatype Call =
    | EmbedCall(model: string, input: seq<string>)
    | UpsertCall(vectors: seq<IndexRecord>)
    | QueryCall(vector: Vector, topK: nat, includeMetadata: bool)
    | ChatCall(request: ChatRequest)

  /** One embedding request per text, in order. */
  function EmbedCalls(texts: seq<string>): seq<Call> {
    seq(|texts|, i requires 0 <= i < |texts| => EmbedCall(EmbeddingModel, [texts[i]]))
  }

  /** The batches written by the upsert requests of a trace, in order. */
  function Upserts(trace: seq<Call>): seq<seq<IndexRecord>> {
    if trace == [] then []
    else (if trace[0].UpsertCall? then [trace[0].vectors] else []) + Upserts(trace[1..])
  }

  lemma {:induction false} UpsertsAppend(a: seq<Call>, b: seq<Call>)
    ensures Upserts(a + b) == Upserts(a) + Upserts(b)
  {
    if a != [] {
      assert (a + b)[0] == a[0];
      assert (a + b)[1..] == a[1..] + b;
      UpsertsAppend(a[1..], b);
    } else {
      assert a + b == b;
    }
  }

  /** A trace without upsert requests writes nothing. */
  lemma {:induction false} NoUpserts(trace: seq<Call>)
    requires forall i | 0 <= i < |trace| :: !trace[i].UpsertCall?
    ensures Upserts(trace) == []
  {
    if trace != [] {
      NoUpserts(trace[1..]);
    }
  }

  /** What `get_vectorstore` returns for a chunk sequence: the list of
      records, or `None` when an embedding request fails (the error escapes
      the source's function). */
  function Ingest(chunks: seq<string>, fileName: string, ids: seq<RecordId>, embed: string -> Option<Vector>): Option<seq<IndexRecord>>
    requires |ids| == |chunks|
  {
    if FirstFailure(chunks, embed) < |chunks| then None
    else Some(Records(chunks, fileName, ids, Embeddings(chunks, embed)))
  }

  /** The requests `get_vectorstore` sends: one embedding request per chunk
      in chunk order, stopping at the first that fails; when none fails, one
      upsert of the whole list. */
  function IngestTrace(chunks: seq<string>, fileName: string, ids: seq<RecordId>, embed: string -> Option<Vector>): seq<Call>
    requires |ids| == |chunks|
  {
    var k := FirstFailure(chunks, embed);
    if k < |chunks| then EmbedCalls(chunks[..k + 1])
    else EmbedCalls(chunks) + [UpsertCall(Ingest(chunks, fileName, ids, embed).value)]
  }

  lemma EmbedCallsExtend(texts: seq<string>, i: nat)
    requires i < |texts|
    ensures EmbedCalls(texts[..i + 1]) == EmbedCalls(texts[..i]) + [EmbedCall(EmbeddingModel, [texts[i]])]
  {
  }

  /** When every chunk embeds, ingestion returns the records of all chunks
      and its trace ends with their upsert. */
  lemma IngestAllEmbedded(chunks: seq<string>, fileName: string, ids: seq<RecordId>, embed: string -> Option<Vector>)
    requires |ids| == |chunks|
    requires forall j | 0 <= j < |chunks| :: embed(chunks[j]).Some?
    ensures var records := Records(chunks, fileName, ids, Embeddings(chunks, embed));
      && Ingest(chunks, fileName, ids, embed) == Some(records)
      && IngestTrace(chunks, fileName, ids, embed) == EmbedCalls(chunks) + [UpsertCall(records)]
  {
  }

  /** When chunk `i` is the first whose embedding fails, ingestion returns
      `None` after the embedding requests of chunks `0..i`. */
  lemma IngestFailsAt(chunks: seq<string>, fileName: string, ids: seq<RecordId>, embed: string -> Option<Vector>, i: nat)
    requires |ids| == |chunks| && i < |chunks|
    requires forall j | 0 <= j < i :: embed(chunks[j]).Some?
    requires embed(chunks[i]).None?
    ensures Ingest(chunks, fileName, ids, embed) == None
    ensures IngestTrace(chunks, fileName, ids, embed) == EmbedCalls(chunks[..i + 1])
  {
    assert FirstFailure(chunks, embed) == i;
  }

  /** Ingestion succeeds exactly when every chunk's embedding does, and then
      yields exactly one record per chunk, in chunk order, holding the
      chunk's id, its embedding, the chunk as content and the file name.
      No chunks give no records. */
  lemma IngestOutcome(chunks: seq<string>, fileName: string, ids: seq<RecordId>, embed: string -> Option<Vector>)
    requires |ids| == |chunks|
    ensures Ingest(chunks, fileName, ids, embed).Some?
      <==> forall i | 0 <= i < |chunks| :: embed(chunks[i]).Some?
    ensures Ingest(chunks, fileName, ids, embed).Some? ==>
      var records := Ingest(chunks, fileName, ids, embed).value;
      && |records| == |chunks|
      && forall i | 0 <= i < |chunks| ::
           Some(records[i].values) == embed(chunks[i])
           && records[i].id == ids[i]
           && records[i].metadata == Metadata(chunks[i], fileName)
    ensures chunks == [] ==> Ingest(chunks, fileName, ids, embed) == Some([])
  {
    if FirstFailure(chunks, embed) == |chunks| {
      RecordsPerChunk(chunks, fileName, ids, Embeddings(chunks, embed));
    }
  }

  /** All records of one ingestion reach the store in a single upsert whose
      batch is exactly the returned list; a failed ingestion writes nothing. */
  lemma IngestSingleUpsert(chunks: seq<string>, fileName: string, ids: seq<RecordId>, embed: string -> Option<Vector>)
    requires |ids| == |chunks|
    ensures var r := Ingest(chunks, fileName, ids, embed);
      Upserts(IngestTrace(chunks, fileName, ids, embed)) == if r.Some? then [r.value] else []
  {
    var k := FirstFailure(chunks, embed);
    if k < |chunks| {
      NoUpserts(EmbedCalls(chunks[..k + 1]));
    } else {
      var batch := Ingest(chunks, fileName, ids, embed).value;
      UpsertsAppend(EmbedCalls(chunks), [UpsertCall(batch)]);
      NoUpserts(EmbedCalls(chunks));
      assert Upserts([UpsertCall(batch)]) == [batch];
    }
  }

  /** The chat-completion request of `handle_userinput`: the system
      instruction, then the assembled prompt as the user message. */
  function ChatRequestFor(systemPrompt: string, prompt: string): ChatRequest {
    ChatRequest(ChatModel, [Message(System, systemPrompt), Message(User, prompt)], MaxTokens, Completions)
  }

  /** The prompt does not determine its sources block: a match whose file
      name looks like the chat history and question headings gives the same
      prompt as dropping that match and starting the question with `:: `,
      the match's content, a newline, and then the chat history and question
      headings. */
  lemma PromptCollision(docs: seq<Metadata>, c: string, q: string)
    requires docs != []
    ensures var forged := Metadata(c, ChatHistoryHeading[1..] + QuestionHeading);
      BuildPrompt(SourcesBlock(docs), ":: " + c + "\n" + ChatHistoryHeading + QuestionHeading + q)
        == BuildPrompt(SourcesBlock(docs + [forged]), q)
  {
    var forged := Metadata(c, ChatHistoryHeading[1..] + QuestionHeading);
    var tail := ":: " + c + "\n";
    SourcesBlockAppend(docs, forged);
    assert Render(forged) == ChatHistoryHeading[1..] + QuestionHeading + tail;
    assert "\n" + ChatHistoryHeading[1..] == ChatHistoryHeading;
    Regroup(SourcesHeading, SourcesBlock(docs), "\n", ChatHistoryHeading[1..], QuestionHeading, tail, q, Trailer);
  }

  /** Moving `a + b + x` from the start of the question slot to the end of
      the sources slot, when the text between the slots is `n + a` then `b`. */
  lemma Regroup(h: string, s: string, n: string, a: string, b: string, x: string, q: string, t: string)
    ensures h + s + (n + a) + "" + b + (x + (n + a) + b + q) + t
         == h + (s + n + (a + b + x)) + (n + a) + "" + b + q + t
  {
  }

  /** The prompt built from a query response and the question. */
  function PromptFor(results: QueryResponse, question: string): string
    requires MetadataPresent(results)
  {
    BuildPrompt(SourcesBlock(Documents(results)), question)
  }

  /** The source renders every match's metadata without a check: when the
      question can be embedded, the index must answer with metadata on every
      match. */
  predicate Answerable(question: string, embed: string -> Option<Vector>, search: (Vector, nat, bool) -> QueryResponse) {
    embed(question).Some? ==> MetadataPresent(search(embed(question).value, TopK, true))
  }

  /** What `handle_userinput` returns: `None` when the question cannot be
      embedded, otherwise the completion's answer. */
  function Answer(question: string, embed: string -> Option<Vector>, search: (Vector, nat, bool) -> QueryResponse,
                  complete: ChatRequest -> string, systemPrompt: string): Option<string>
    requires Answerable(question, embed, search)
  {
    match embed(question)
    case None => None
    case Some(v) => Some(complete(ChatRequestFor(systemPrompt, PromptFor(search(v, TopK, true), question))))
  }

  /** The requests `handle_userinput` sends: the question's embedding and,
      only when that succeeds, one index query and one completion request. */
  function AnswerTrace(question: string, embed: string -> Option<Vector>, search: (Vector, nat, bool) -> QueryResponse,
                       systemPrompt: string): seq<Call>
    requires Answerable(question, embed, search)
  {
    match embed(question)
    case None => [EmbedCall(EmbeddingModel, [question])]
    case Some(v) =>
      [EmbedCall(EmbeddingModel, [question]), QueryCall(v, TopK, true),
       ChatCall(ChatRequestFor(systemPrompt, PromptFor(search(v, TopK, true), question)))]
  }

  /** The guard on the question path: when the question's embedding fails
      the answer is `None` and the only request sent is that embedding; no
      query, no completion. Answering never writes to the store. */
  lemma QuestionGuard(question: string, embed: string -> Option<Vector>, search: (Vector, nat, bool) -> QueryResponse,
                      complete: ChatRequest -> string, systemPrompt: string)
    requires Answerable(question, embed, search)
    ensures Answer(question, embed, search, complete, systemPrompt).None? <==> embed(question).None?
    ensures embed(question).None? ==>
      forall c | c in AnswerTrace(question, embed, search, systemPrompt) :: c.EmbedCall?
    ensures Upserts(AnswerTrace(question, embed, search, systemPrompt)) == []
  {
    NoUpserts(AnswerTrace(question, embed, search, systemPrompt));
  }

  /** Every query asks for the 16 nearest records with their metadata; every
      completion request holds exactly one system message with the system
      instruction followed by one user message with the prompt, and asks
      for one completion of at most 512 tokens. */
  lemma RequestShape(question: string, embed: string -> Option<Vector>, search: (Vector, nat, bool) -> QueryResponse,
                     systemPrompt: string)
    requires Answerable(question, embed, search)
    ensures forall c | c in AnswerTrace(question, embed, search, systemPrompt) && c.QueryCall? ::
      c.topK == 16 && c.includeMetadata
    ensures forall c | c in AnswerTrace(question, embed, search, systemPrompt) && c.ChatCall? ::
      && c.request.model == ChatModel
      && |c.request.messages| == 2
      && c.request.messages[0] == Message(System, systemPrompt)
      && c.request.messages[1].role == User
      && c.request.messages[1].content == PromptFor(search(embed(question).value, TopK, true), question)
      && c.request.maxTokens == 512
      && c.request.n == 1
  {
  }

  /** The services hello.py talks to, configured once: the embedding
      service, the vector index and the chat-completion service as
      functions, and the system instruction. `stored` is the records this
      object has upserted, in order (not what the persistent index may
      already hold); `calls` is every request sent, in order. */
  class Services {
    const embedder: string -> Option<Vector>
    const searcher: (Vector, nat, bool) -> QueryResponse
    const completer: ChatRequest -> string
    const systemPrompt: string
    var stored: seq<IndexRecord>
    var calls: seq<Call>

    constructor (embedder: string -> Option<Vector>, searcher: (Vector, nat, bool) -> QueryResponse,
                 completer: ChatRequest -> string, systemPrompt: string)
      ensures this.embedder == embedder && this.searcher == searcher
      ensures this.completer == completer && this.systemPrompt == systemPrompt
      ensures stored == [] && calls == []
    {
      this.embedder := embedder;
      this.searcher := searcher;
      this.completer := completer;
      this.systemPrompt := systemPrompt;
      stored := [];
      calls := [];
    }

    /** One embedding request; `None` when the service raises an error. */
    method Embed(text: string) returns (r: Option<Vector>)
      modifies this
      ensures r == embedder(text)
      ensures calls == old(calls) + [EmbedCall(EmbeddingModel, [text])] && stored == old(stored)
    {
      r := embedder(text);
      calls := calls + [EmbedCall(EmbeddingModel, [text])];
    }

    /** One upsert request; the batch is appended to the store. */
    method Upsert(vectors: seq<IndexRecord>)
      modifies this
      ensures stored == old(stored) + vectors
      ensures calls == old(calls) + [UpsertCall(vectors)]
    {
      stored := stored + vectors;
      calls := calls + [UpsertCall(vectors)];
    }

    /** One similarity query. */
    method Query(vector: Vector, topK: nat, includeMetadata: bool) returns (results: QueryResponse)
      modifies this
      ensures results == searcher(vector, topK, includeMetadata)
      ensures calls == old(calls) + [QueryCall(vector, topK, includeMetadata)] && stored == old(stored)
    {
      results := searcher(vector, topK, includeMetadata);
      calls := calls + [QueryCall(vector, topK, includeMetadata)];
    }

    /** One chat-completion request; the content of its first choice. */
    method Complete(request: ChatRequest) returns (answer: string)
      modifies this
      ensures answer == completer(request)
      ensures calls == old(calls) + [ChatCall(request)] && stored == old(stored)
    {
      answer := completer(request);
      calls := calls + [ChatCall(request)];
    }

    /** `get_vectorstore`: embed each chunk in turn, append its record to
        `vectors`, then upsert the whole list in one request and return it.
        An embedding error stops the loop and escapes before the upsert. */
    method GetVectorstore(chunks: seq<string>, fileName: string, ids: seq<RecordId>) returns (r: Option<seq<IndexRecord>>)
      requires |ids| == |chunks|
      modifies this
      ensures r == Ingest(chunks, fileName, ids, embedder)
      ensures calls == old(calls) + IngestTrace(chunks, fileName, ids, embedder)
      ensures stored == old(stored) + (if r.Some? then r.value else [])
    {
      var vectors: seq<IndexRecord> := [];
      var i := 0;
      while i < |chunks|
        invariant 0 <= i <= |chunks|
        invariant forall j | 0 <= j < i :: embedder(chunks[j]).Some?
        invariant vectors == Records(chunks[..i], fileName, ids[..i], Embeddings(chunks[..i], embedder))
        invariant calls == old(calls) + EmbedCalls(chunks[..i])
        invariant stored == old(stored)
      {
        var embedding := Embed(chunks[i]);
        EmbedCallsExtend(chunks, i);
        if embedding.None? {
          IngestFailsAt(chunks, fileName, ids, embedder, i);
          return None;
        }
        RecordsExtend(chunks, fileName, ids, embedder, i);
        vectors := vectors + [IndexRecord(ids[i], embedding.value, Metadata(chunks[i], fileName))];
        i := i + 1;
      }
      assert chunks[..i] == chunks && ids[..i] == ids;
      IngestAllEmbedded(chunks, fileName, ids, embedder);
      Upsert(vectors);
      return Some(vectors);
    }

    /** `embed_question`: the question's embedding, or `None` when the
        service raises (the error is reported to the user, not raised). */
    method EmbedQuestion(question: string) returns (r: Option<Vector>)
      modifies this
      ensures r == embedder(question)
      ensures calls == old(calls) + [EmbedCall(EmbeddingModel, [question])] && stored == old(stored)
    {
      r := Embed(question);
    }

    /** `handle_userinput`: embed the question; if that fails, stop with
        `None`. Otherwise query the 16 nearest records with metadata,
        collect each match's metadata, render the sources block, fill the
        template and ask for one completion. */
    method HandleUserinput(question: string) returns (answer: Option<string>)
      requires Answerable(question, embedder, searcher)
      modifies this
      ensures answer == Answer(question, embedder, searcher, completer, systemPrompt)
      ensures calls == old(calls) + AnswerTrace(question, embedder, searcher, systemPrompt)
      ensures stored == old(stored)
    {
      var embedding := EmbedQuestion(question);
      if embedding.Some? {
        var results := Query(embedding.value, TopK, true);
        var points := CollectPoints(results);
        var docs := seq(|points|, i requires 0 <= i < |points| => points[i].value);
        assert docs == Documents(results);
        var content := SourcesBlock(docs);
        var prompt := BuildPrompt(content, question);
        var reply := Complete(ChatRequestFor(systemPrompt, prompt));
        answer := Some(reply);
      } else {
        answer := None;
      }
    }
  }
}
