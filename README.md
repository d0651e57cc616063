# Chat with PDFs: ingestion, retrieval glue and prompt assembly

A Dafny model of the logic that `hello.py` writes itself, between its calls to
the embedding service, the vector index and the chat-completion service:

- **Ingestion** (`get_vectorstore`): for each chunk of a document, in order,
  request its embedding and append a record `{id, values, metadata: {content:
  chunk, filename: file_name}}` to a list. Then send the whole list in one
  upsert and return it. An embedding error escapes the function before the
  upsert.
- **Question path** (`embed_question`, `handle_userinput`): embed the
  question. If that fails, report and stop: no query and no completion
  request. Otherwise query the 16 nearest records with their metadata. Collect
  each match's metadata in match order and render each one as
  `filename:: content` plus a newline. Join the entries with `"\n"`, put them
  into the fixed prompt template with an empty chat history, and send one
  system message and one user message to the completion service.

The external services are given to a `Services` object as functions
(`embedder`, `searcher`, `completer`) with the system instruction. The object
records every request it sends in `calls`, in order, and appends every
upserted batch to `stored`. The chunk sequence and the record ids are inputs.

The model's defining functions, which the lemmas below are about, are
`IndexRecords.Records` (the records of a chunk list), `Pipeline.Ingest` and
`Pipeline.IngestTrace` (what `get_vectorstore` returns and sends),
`Pipeline.Answer` and `Pipeline.AnswerTrace` (what `handle_userinput` returns
and sends), `Pipeline.ChatRequestFor` (the completion request, hello.py:96-99)
and `Template.FormatPrompt` and `Template.BuildPrompt` (the template fill,
hello.py:94).

Modules: `Wrappers` (Option), `IndexRecords` (records and the per-chunk
builder), `Strings` (`str.join` and occurrences), `Prompt` (match metadata,
source rendering, the sources block), `Template` (the prompt template),
`Pipeline` (the requests, the `Services` class and the two paths).

Behaviour of hello.py that a reader might not expect:
- A match without metadata is not dropped. The code appends it and then fails
  when it subscripts it. The model makes the presence of metadata a
  precondition (`Pipeline.Answerable`).
- The `":: "` separator and the template slots are not escaped, so a prompt
  does not determine its parts (`Prompt.RenderNotInjective`,
  `Pipeline.PromptCollision`).
- An empty chunk sequence still sends one upsert, with an empty batch. It
  writes no records.
- Ingestion returns the list of records, not a count.

## Model

| member | source | states |
|---|---|---|
| IndexRecords.FirstFailure | hello.py:39-40 | the position of the first chunk whose embedding fails, or the number of chunks: every chunk before it embeds, and the chunk at it does not |
| IndexRecords.RecordsPerChunk | hello.py:37-42 | the built list has exactly one record per chunk, in chunk order; record i has id i, vector i, content = chunk i and filename = the given file name |
| IndexRecords.ChunksRecoverable | hello.py:39-42 | reading the contents back out of the records gives the chunk sequence exactly, and every record carries the given file name |
| IndexRecords.RecordsExtend | hello.py:39-42 | one more embedded chunk appends exactly its record after the records of the chunks before it |
| Pipeline.IngestOutcome | hello.py:34-46 | ingestion succeeds iff every chunk's embedding succeeds; on success one record per chunk in order with that chunk's id, embedding, content and the file name; no chunks give an empty list |
| Pipeline.IngestSingleUpsert | hello.py:37-46 | the upserts of one ingestion are exactly one batch, equal to the returned list; a failed ingestion upserts nothing |
| Pipeline.IngestFailsAt | hello.py:39-40 | when chunk i is the first whose embedding fails, the result is None and the requests are the embeddings of chunks 0..i only |
| Pipeline.IngestAllEmbedded | hello.py:39-46 | when every chunk embeds, the result is the records of all chunks and the requests end with one upsert of exactly those records |
| Pipeline.EmbedCallsExtend | hello.py:39-40 | one more chunk adds one embedding request for that chunk at the end of the trace |
| Pipeline.UpsertsAppend | hello.py:44 | the batches upserted by two traces in sequence are those of the first followed by those of the second |
| Pipeline.NoUpserts | hello.py:44 | a trace without upsert requests writes no batch |
| Pipeline.Services.constructor | hello.py:11-16 | the services are configured once and nothing is stored or requested yet |
| Pipeline.Services.Embed | hello.py:40 | one embedding request with the fixed model, recorded in the trace; the store is unchanged |
| Pipeline.Services.Upsert | hello.py:44 | one upsert request; the batch is appended to the store |
| Pipeline.Services.Query | hello.py:83 | one query request, recorded with its top_k and include_metadata; the store is unchanged |
| Pipeline.Services.Complete | hello.py:96-102 | one completion request, recorded; the answer is the service's reply |
| Pipeline.Services.GetVectorstore | hello.py:34-46 | returns the ingestion result, sends exactly the ingestion's requests, and appends the returned records to the store on success; a failure leaves the store unchanged |
| Pipeline.Services.EmbedQuestion | hello.py:49-56 | the question's embedding, or None when the service fails; one embedding request; the store is unchanged |
| Pipeline.Services.HandleUserinput | hello.py:79-105 | returns the answer of the question path and sends exactly its requests (only the embedding request when that fails); never writes to the store |
| Pipeline.QuestionGuard | hello.py:80-105 | the answer is None iff the question's embedding fails; then every request sent is an embedding request (no query, no completion); answering never upserts |
| Pipeline.RequestShape | hello.py:83-99 | every query asks for top_k 16 with metadata; every completion request uses the fixed model, holds exactly a system message with the instruction followed by a user message with the assembled prompt, and asks for n = 1, max_tokens = 512 |
| Prompt.CollectPoints | hello.py:85-88 | one point per match, in match order, each the match's metadata (none dropped); a response without "matches" gives no points |
| Prompt.Render | hello.py:91 | an entry is the file name, then ":: ", then the content, then one newline, and nothing else |
| Prompt.RenderNotInjective | hello.py:91 | a ":: " in the file name and one in the content render alike: the unescaped separator does not identify the parts |
| Strings.Join | hello.py:92 | joining no parts gives the empty string; otherwise the length is the parts' total length plus one separator between each pair of neighbours |
| Strings.JoinSplit | hello.py:92 | joining two non-empty lists in sequence is joining each and putting exactly one separator between them |
| Strings.JoinHeadAt | hello.py:92 | the joined text starts with the first part |
| Strings.JoinEntryAt | hello.py:92 | part i occurs verbatim in the joined text, right after the join of the parts before it and one separator |
| Prompt.SourcesBlock | hello.py:91-92 | the sources block is empty iff there are no matches |
| Prompt.SourcesBlockSeparation | hello.py:91-92 | consecutive entries are separated by a blank line: the first entry is "filename:: content" followed by "\n\n" and the block of the remaining matches |
| Prompt.SourcesBlockAppend | hello.py:86-92 | one more match adds its entry at the end of the block after a newline, so entries keep match order |
| Prompt.SourceEntryAt | hello.py:91-92 | entry i appears verbatim in the block, right after the block of the entries before it and one newline |
| Template.HeadingsAt | hello.py:58-67 | the template text holds "Sources:", "Chat History:" and "Question:" at fixed offsets within their heading lines |
| Template.PromptLayout | hello.py:58-67 | the prompt holds the headings Sources:, Chat History: and Question: in that order; the sources block verbatim right under the first; the question heading directly after the chat history heading (empty history); the question verbatim under the last |
| Template.PromptNotInjective | hello.py:94 | for arbitrary slot values the template's slots are not delimited: text that looks like the two headings can be moved between the sources slot and the question slot without changing the prompt |
| Pipeline.PromptCollision | hello.py:91-94 | a reachable collision: a match whose file name looks like the chat history and question headings gives the same prompt as dropping that match and starting the question with `:: `, the match's content, a newline, and then the chat history and question headings, so the prompt does not determine the sources block |

## Left out

- The Streamlit interface (`main`, `st.write`, `st.error`, the sidebar and the uploader) is presentation and is not modelled. The error messages shown to the user are not modelled either.
- PDF text extraction (`get_pdf_text`) wraps an outside library and is not modelled.
- Text splitting (`get_text_chunks` and the recursive splitter with 1000/100) is library code. The chunk sequence is an input, and chunk boundaries and overlap are not modelled.
- Record ids come from `uuid.uuid4()`. They are an input sequence with one id per chunk, and their uniqueness is not proved.
- The embedding, index and completion services are deterministic functions in the model. Nearest-neighbour ranking and scores belong to the index and are not modelled.
- The index's overwrite-by-id is not modelled: `Services.stored` is the records of all upserted batches concatenated in order, and `searcher` never reads it, so a query's matches have no modelled link to what was ingested.
- Only embedding failures are modelled. Errors raised by the upsert, the query or the completion request propagate in the source and are not modelled.
- The temperature (`overrides.get("temperature") or 0`, always 0 here, since `overrides` is empty) is not part of the modelled request.
- The wording of the system instruction is a constructor parameter, not a constant of the model.
- Python's parsing of the format string is not modelled. The template is written out as its literal text around the three slots. The unused `injected_prompt` argument has no placeholder and is not a parameter.
- Template.PromptLayout: places the sources block and the question at their positions under their headings but does not claim each occurs only once in the prompt. The question or the sources can themselves contain the same text, and Pipeline.PromptCollision shows that the prompt does not determine them.
- Pipeline.Answerable: a match without metadata makes the source fail. This is a precondition rather than a modelled crash, and the same holds for metadata missing its `content` or `filename` key.
