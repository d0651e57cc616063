/** Index records written at ingestion time (`get_vectorstore` in hello.py):
    one record per chunk, carrying an id, the chunk's embedding and the
    metadata `{content: chunk, filename: file_name}`. */
module IndexRecords {
  import opened Wrappers

  /** An embedding vector. The embedding service computes it; the model never
      looks inside it. */
  type Vector = seq<real>

  /** A record id. The source draws a fresh `uuid4` per record; here the caller
      supplies the ids. */
  type RecordId = string

  /** The metadata stored with every record and returned with every match. */
  datatype Metadata = Metadata(content: string, filename: string)

  /** One upserted record: `{'id': ..., 'values': ..., 'metadata': ...}`. */
  datatype IndexRecord = IndexRecord(id: RecordId, values: Vector, metadata: Metadata)

  /** The records built for `chunks`, in chunk order: the last chunk's record
      is appended after the records of all chunks before it, as the source's
      loop appends to its `vectors` list. */
  function Records(chunks: seq<string>, fileName: string, ids: seq<RecordId>, vectors: seq<Vector>): seq<IndexRecord>
    requires |ids| == |chunks| && |vectors| == |chunks|
  {
    if chunks == [] then []
    else
      var n := |chunks| - 1;
      Records(chunks[..n], fileName, ids[..n], vectors[..n])
        + [IndexRecord(ids[n], vectors[n], Metadata(chunks[n], fileName))]
  }

  /** Exactly one record per chunk, in chunk order; record `i` has the `i`-th
      id and vector, its content is chunk `i` and its filename is the given
      file name. */
  lemma {:induction false} RecordsPerChunk(chunks: seq<string>, fileName: string, ids: seq<RecordId>, vectors: seq<Vector>)
    requires |ids| == |chunks| && |vectors| == |chunks|
    ensures |Records(chunks, fileName, ids, vectors)| == |chunks|
    ensures forall i | 0 <= i < |chunks| ::
      Records(chunks, fileName, ids, vectors)[i] == IndexRecord(ids[i], vectors[i], Metadata(chunks[i], fileName))
  {
    if chunks != [] {
      var n := |chunks| - 1;
      RecordsPerChunk(chunks[..n], fileName, ids[..n], vectors[..n]);
    }
  }

  /** The `content` fields of a list of records, in order. */
  function Contents(records: seq<IndexRecord>): seq<string> {
    seq(|records|, i requires 0 <= i < |records| => records[i].metadata.content)
  }

  /** Reading the contents back out of the built records gives the chunk
      sequence exactly, and every record is labelled with the file name. */
  lemma ChunksRecoverable(chunks: seq<string>, fileName: string, ids: seq<RecordId>, vectors: seq<Vector>)
    requires |ids| == |chunks| && |vectors| == |chunks|
    ensures Contents(Records(chunks, fileName, ids, vectors)) == chunks
    ensures forall r | r in Records(chunks, fileName, ids, vectors) :: r.metadata.filename == fileName
  {
    RecordsPerChunk(chunks, fileName, ids, vectors);
  }

  /** The position of the first chunk whose embedding fails, or `|chunks|`
      when every embedding succeeds. */
  function FirstFailure(chunks: seq<string>, embed: string -> Option<Vector>): (k: nat)
    ensures k <= |chunks|
    ensures forall j | 0 <= j < k :: embed(chunks[j]).Some?
    ensures k < |chunks| ==> embed(chunks[k]).None?
  {
    if chunks == [] || embed(chunks[0]).None? then 0
    else 1 + FirstFailure(chunks[1..], embed)
  }

  /** The embeddings of `chunks`, in order, when none of them fails. */
  function Embeddings(chunks: seq<string>, embed: string -> Option<Vector>): seq<Vector>
    requires forall j | 0 <= j < |chunks| :: embed(chunks[j]).Some?
  {
    seq(|chunks|, j requires 0 <= j < |chunks| => embed(chunks[j]).value)
  }

  /** Extending the chunk prefix by one successfully embedded chunk appends
      that chunk's record. */
  lemma RecordsExtend(chunks: seq<string>, fileName: string, ids: seq<RecordId>, embed: string -> Option<Vector>, i: nat)
    requires |ids| == |chunks| && i < |chunks|
    requires forall j | 0 <= j <= i :: embed(chunks[j]).Some?
    ensures Records(chunks[..i + 1], fileName, ids[..i + 1], Embeddings(chunks[..i + 1], embed))
         == Records(chunks[..i], fileName, ids[..i], Embeddings(chunks[..i], embed))
            + [IndexRecord(ids[i], embed(chunks[i]).value, Metadata(chunks[i], fileName))]
  {
    assert chunks[..i + 1][..i] == chunks[..i] && ids[..i + 1][..i] == ids[..i];
    assert Embeddings(chunks[..i + 1], embed)[..i] == Embeddings(chunks[..i], embed);
  }
}
