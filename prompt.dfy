/** From the index's matches to the user prompt (`handle_userinput` in
    hello.py): collect each match's metadata, render every source as
    `filename:: content` on its own line, join the entries with newlines and
    fill the fixed prompt template. */
module Prompt {
  import opened Wrappers
  import opened IndexRecords
  import opened Strings

  /** One match of a similarity query. The score is computed by the index
      service and is not interpreted here. */
  datatype Match = Match(id: RecordId, score: real, metadata: Option<Metadata>)

  /** A query response. `matches` is `None` when the response has no
      `"matches"` key. */
  datatype QueryResponse = QueryResponse(matches: Option<seq<Match>>)

  /** The `points` loop: the metadata of every match, in match order, with
      no match dropped. A response without a `"matches"` key gives no points. */
  method CollectPoints(results: QueryResponse) returns (points: seq<Option<Metadata>>)
    ensures results.matches.None? ==> points == []
    ensures results.matches.Some? ==> |points| == |results.matches.value|
    ensures results.matches.Some? ==>
      forall i | 0 <= i < |points| :: points[i] == results.matches.value[i].metadata
  {
    var matches := results.matches.GetOr([]);
    points := [];
    for i := 0 to |matches|
      invariant |points| == i
      invariant forall j | 0 <= j < i :: points[j] == matches[j].metadata
    {
      points := points + [matches[i].metadata];
    }
  }

  /** Whether every match of a response carries metadata. The source
      subscripts each point without checking, so a match without metadata
      makes it fail. */
  predicate MetadataPresent(results: QueryResponse) {
    results.matches.Some? ==>
      forall i | 0 <= i < |results.matches.value| :: results.matches.value[i].metadata.Some?
  }

  /** The metadata of every match of a well-formed response, in match order. */
  function Documents(results: QueryResponse): seq<Metadata>
    requires MetadataPresent(results)
  {
    var matches := results.matches.GetOr([]);
    seq(|matches|, i requires 0 <= i < |matches| => matches[i].metadata.value)
  }

  /** One source entry: the file name, the unescaped separator `":: "`, the
      content and a terminating newline. */
  function Render(doc: Metadata): (r: string)
    ensures |r| == |doc.filename| + |doc.content| + 4
    ensures r[..|doc.filename|] == doc.filename
    ensures r[|doc.filename|..|doc.filename| + 3] == ":: "
    ensures r[|doc.filename| + 3..|r| - 1] == doc.content
    ensures r[|r| - 1] == '\n'
  {
    doc.filename + ":: " + doc.content + "\n"
  }

  /** Because the separator is not escaped, a `":: "` inside a file name and
      one inside the content cannot be told apart: different metadata can
      render to the same entry. */
  lemma RenderNotInjective(f: string, c: string, x: string)
    ensures Render(Metadata(c + ":: " + x, f)) == Render(Metadata(x, f + ":: " + c))
  {
  }

  /** The rendered entries, one per document, in document order. */
  function Rendered(docs: seq<Metadata>): seq<string> {
    seq(|docs|, i requires 0 <= i < |docs| => Render(docs[i]))
  }

  /** The sources block: the rendered entries joined with `"\n"`. It is empty
      exactly when there are no documents. */
  function SourcesBlock(docs: seq<Metadata>): (r: string)
    ensures r == "" <==> docs == []
  {
    var parts := Rendered(docs);
    assert parts != [] ==> TotalLength(parts) >= |parts[0]| > 0;
    Join("\n", parts)
  }

  /** Consecutive entries are separated by a blank line: the first entry's
      own newline followed by the joining newline. */
  lemma SourcesBlockSeparation(docs: seq<Metadata>)
    requires |docs| >= 2
    ensures SourcesBlock(docs)
      == docs[0].filename + ":: " + docs[0].content + "\n\n" + SourcesBlock(docs[1..])
  {
    assert Rendered(docs)[1..] == Rendered(docs[1..]);
  }

  /** One more match adds its entry at the end of the block, after a newline:
      entries keep the order in which the matches arrive. */
  lemma SourcesBlockAppend(docs: seq<Metadata>, d: Metadata)
    requires docs != []
    ensures SourcesBlock(docs + [d]) == SourcesBlock(docs) + "\n" + Render(d)
  {
    assert Rendered(docs + [d]) == Rendered(docs) + [Render(d)];
    JoinSplit("\n", Rendered(docs), [Render(d)]);
  }

  /** Entry `i` appears verbatim in the block, right after the block of the
      entries before it and the newline that joins them. */
  lemma SourceEntryAt(docs: seq<Metadata>, i: nat)
    requires i < |docs|
    ensures OccursAt(Render(docs[i]), SourcesBlock(docs), if i == 0 then 0 else |SourcesBlock(docs[..i])| + 1)
  {
    assert Rendered(docs)[..i] == Rendered(docs[..i]);
    JoinEntryAt("\n", Rendered(docs), i);
  }
}
