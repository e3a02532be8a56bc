/** The document store (utils/vector_store.py). The embedding model and the
    ChromaDB similarity search are functions handed to the store; what the
    store has sent to its collection is the sequence `entries`. */
module VectorStore {
  import opened Wrappers
  import opened Text
  import opened Seqs

  /** A metadata value: a string or an integer. */
  datatype MetaValue = Str(s: string) | Int(n: int)

  type Metadata = map<string, MetaValue>

  type Embedding = seq<real>

  /** One `collection.add` call: parallel lists of embeddings, documents,
      metadatas and ids. */
  datatype AddRequest = AddRequest(embeddings: seq<Embedding>, documents: seq<string>, metadatas: seq<Metadata>, ids: seq<string>)

  /** One `collection.query` call with a single query embedding. */
  datatype QueryRequest = QueryRequest(embedding: Embedding, nResults: int, filter: Option<Metadata>)

  /** What `collection.query` returns: one inner list per query embedding; an
      empty outer list stands for a missing or empty field. */
  datatype QueryResult = QueryResult(
    documents: seq<seq<string>>, distances: seq<seq<real>>, metadatas: seq<seq<Metadata>>, ids: seq<seq<string>>)

  /** What `search` returns: the lists for the single query. */
  datatype SearchResult = SearchResult(documents: seq<string>, distances: seq<real>, metadatas: seq<Metadata>, ids: seq<string>)

  /** `xs[0] if xs else []` */
  function FirstOrEmpty<T>(xs: seq<seq<T>>): (r: seq<T>)
    ensures xs == [] ==> r == []
    ensures xs != [] ==> r == xs[0]
  {
    if xs == [] then [] else xs[0]
  }

  /** The unwrapping at the end of `search`: each field's list for the first
      query, or the empty list when the store returned none. */
  function Unwrap(results: QueryResult): (r: SearchResult)
    ensures r.documents == FirstOrEmpty(results.documents) && r.distances == FirstOrEmpty(results.distances)
    ensures r.metadatas == FirstOrEmpty(results.metadatas) && r.ids == FirstOrEmpty(results.ids)
  {
    SearchResult(FirstOrEmpty(results.documents), FirstOrEmpty(results.distances),
      FirstOrEmpty(results.metadatas), FirstOrEmpty(results.ids))
  }

  const NO_CONTEXT: string := "No relevant context found."

  /** The text of a metadata value inside an f-string. */
  function Render(v: MetaValue): string {
    match v
    case Str(s) => s
    case Int(n) => IntToString(n)
  }

  /** `metadata.get("source", "Unknown")`, as text. */
  function SourceOf(m: Metadata): string {
    if "source" in m then Render(m["source"]) else "Unknown"
  }

  const BLOCK_PREFIX: string := "[Source "

  /** `f"[Source {i}: {source} (Relevance: {relevance})]\n{doc}\n"` */
  function ContextBlock(i: nat, source: string, relevance: string, doc: string): string {
    BLOCK_PREFIX + IntToString(i) + ": " + (source + " (Relevance: " + relevance + ")]\n" + doc + "\n")
  }

  /** Every block opens with its numbered source header. */
  lemma ContextBlockHeader(i: nat, source: string, relevance: string, doc: string)
    ensures StartsWith(ContextBlock(i, source, relevance, doc), BLOCK_PREFIX + IntToString(i) + ": ")
  {
    var head := BLOCK_PREFIX + IntToString(i) + ": ";
    assert (head + (source + " (Relevance: " + relevance + ")]\n" + doc + "\n"))[..|head|] == head;
  }

  /** The number of triples `zip` pairs up. */
  function ZipLength(r: SearchResult): nat {
    Min(|r.documents|, Min(|r.metadatas|, |r.distances|))
  }

  /** The context blocks for the zipped (document, metadata, distance)
      triples, numbered from 1 in retrieval order. */
  function Blocks(r: SearchResult, labelOf: real -> string): (bs: seq<string>)
    ensures |bs| == ZipLength(r)
  {
    seq(ZipLength(r), i requires 0 <= i < ZipLength(r) =>
      ContextBlock(i + 1, SourceOf(r.metadatas[i]), labelOf(r.distances[i]), r.documents[i]))
  }

  /** Block i renders the i-th retrieved triple, numbered i + 1 in retrieval
      order; a metadata without "source" names the source "Unknown". */
  lemma BlocksContents(r: SearchResult, labelOf: real -> string, i: nat)
    requires i < ZipLength(r)
    ensures Blocks(r, labelOf)[i] == ContextBlock(i + 1, SourceOf(r.metadatas[i]), labelOf(r.distances[i]), r.documents[i])
    ensures "source" !in r.metadatas[i] ==>
      Blocks(r, labelOf)[i] == ContextBlock(i + 1, "Unknown", labelOf(r.distances[i]), r.documents[i])
  {
  }

  /** The context `get_context_for_query` renders from a search result. */
  function ContextFor(r: SearchResult, labelOf: real -> string): string {
    if r.documents == [] then NO_CONTEXT else Join("\n", Blocks(r, labelOf))
  }

  /** A rendering with at least one block starts with the first block's
      header `"[Source 1: "`. */
  lemma ContextStartsWithFirstBlock(r: SearchResult, labelOf: real -> string)
    requires ZipLength(r) >= 1
    ensures StartsWith(ContextFor(r, labelOf), "[Source 1: ")
  {
    var bs := Blocks(r, labelOf);
    JoinStartsWith("\n", bs);
    ContextBlockHeader(1, SourceOf(r.metadatas[0]), labelOf(r.distances[0]), r.documents[0]);
    assert IntToString(1) == "1";
    assert BLOCK_PREFIX + IntToString(1) + ": " == "[Source 1: ";
  }

  /** The rendering is the sentinel exactly when nothing was retrieved: a
      rendering of blocks starts with "[Source 1: ", and when the documents
      are there but no metadata came back it is the empty string. */
  lemma ContextIsSentinelIff(r: SearchResult, labelOf: real -> string)
    ensures ContextFor(r, labelOf) == NO_CONTEXT <==> r.documents == []
    ensures r.documents != [] && ZipLength(r) == 0 ==> ContextFor(r, labelOf) == ""
  {
    if r.documents != [] {
      if ZipLength(r) == 0 {
        JoinShort("\n", Blocks(r, labelOf));
      } else {
        ContextStartsWithFirstBlock(r, labelOf);
        assert NO_CONTEXT[..|"[Source 1: "|] != "[Source 1: " by {
          assert NO_CONTEXT[0] == 'N';
        }
      }
    }
  }

  /** `[{"source": "unknown"} for _ in documents]` */
  function DefaultMetadatas(n: nat): (ms: seq<Metadata>)
    ensures |ms| == n
    ensures forall i :: 0 <= i < n ==> ms[i] == map["source" := Str("unknown")]
  {
    seq(n, _ => map["source" := Str("unknown")])
  }

  /** The ids of `n` fresh documents: `uuid(first)`, `uuid(first + 1)`, ... */
  function FreshIds(uuid: nat -> string, first: nat, n: nat): (ids: seq<string>)
    ensures |ids| == n
    ensures forall i :: 0 <= i < n ==> ids[i] == uuid(first + i)
  {
    seq(n, i requires 0 <= i < n => uuid(first + i))
  }

  /** `self.embedding_model.encode(documents)` */
  function EmbedAll(embed: string -> Embedding, documents: seq<string>): (es: seq<Embedding>)
    ensures |es| == |documents|
  {
    seq(|documents|, i requires 0 <= i < |documents| => embed(documents[i]))
  }

  class Store {
    const collectionName: string
    const persistDirectory: string
    /** The sentence-embedding model. */
    const embed: string -> Embedding
    /** ChromaDB's answer to a query, given everything added so far. */
    const query: (seq<AddRequest>, QueryRequest) -> QueryResult
    /** The `:.2f` rendering of `1 - distance`. */
    const relevanceLabel: real -> string
    /** `uuid.uuid4()` as a numbered supply of identifiers. */
    const uuid: nat -> string

    /** The `collection.add` calls made so far, in order. */
    var entries: seq<AddRequest>
    /** How many identifiers have been drawn from `uuid`. */
    var idsIssued: nat

    constructor(collectionName: string, persistDirectory: string, embed: string -> Embedding,
                query: (seq<AddRequest>, QueryRequest) -> QueryResult, relevanceLabel: real -> string, uuid: nat -> string)
      ensures this.collectionName == collectionName && this.persistDirectory == persistDirectory
      ensures this.embed == embed && this.query == query && this.relevanceLabel == relevanceLabel && this.uuid == uuid
      ensures entries == [] && idsIssued == 0
    {
      this.collectionName := collectionName;
      this.persistDirectory := persistDirectory;
      this.embed := embed;
      this.query := query;
      this.relevanceLabel := relevanceLabel;
      this.uuid := uuid;
      entries := [];
      idsIssued := 0;
    }

    /** The `collection.add` call for a non-empty batch: the documents'
        embeddings, the caller's metadatas or `{"source": "unknown"}` for each
        document, and the caller's ids or fresh ones drawn from `first` on. */
    function AddCall(documents: seq<string>, metadatas: Option<seq<Metadata>>, ids: Option<seq<string>>, first: nat): (req: AddRequest)
      ensures |req.embeddings| == |req.documents| == |documents|
      ensures req.documents == documents
      ensures metadatas.Some? ==> req.metadatas == metadatas.value
      ensures metadatas.None? ==> |req.metadatas| == |documents|
      ensures metadatas.None? ==> forall i :: 0 <= i < |documents| ==> req.metadatas[i] == map["source" := Str("unknown")]
      ensures ids.Some? ==> req.ids == ids.value
      ensures ids.None? ==> |req.ids| == |documents|
      ensures ids.None? ==> forall i :: 0 <= i < |documents| ==> req.ids[i] == uuid(first + i)
    {
      AddRequest(EmbedAll(embed, documents), documents,
        if metadatas.Some? then metadatas.value else DefaultMetadatas(|documents|),
        if ids.Some? then ids.value else FreshIds(uuid, first, |documents|))
    }

    /** `VectorStore.add_documents`: nothing for no documents; otherwise one
        `collection.add`, returning the ids it used. */
    method AddDocuments(documents: seq<string>, metadatas: Option<seq<Metadata>>, ids: Option<seq<string>>)
      returns (added: seq<string>)
      modifies this
      ensures documents == [] ==> added == [] && entries == old(entries) && idsIssued == old(idsIssued)
      ensures documents != [] ==>
        && added == AddCall(documents, metadatas, ids, old(idsIssued)).ids
        && idsIssued == old(idsIssued) + (if ids.Some? then 0 else |documents|)
        && entries == old(entries) + [AddCall(documents, metadatas, ids, old(idsIssued))]
    {
      if documents == [] {
        return [];
      }
      var theIds: seq<string>;
      if ids.None? {
        theIds := FreshIds(uuid, idsIssued, |documents|);
        idsIssued := idsIssued + |documents|;
      } else {
        theIds := ids.value;
      }
      var embeddings := EmbedAll(embed, documents);
      var theMetadatas := if metadatas.None? then DefaultMetadatas(|documents|) else metadatas.value;
      entries := entries + [AddRequest(embeddings, documents, theMetadatas, theIds)];
      added := theIds;
    }

    /** `VectorStore.search` */
    function Search(q: string, nResults: int, filter: Option<Metadata>): (r: SearchResult)
      reads this
      ensures r == Unwrap(query(entries, QueryRequest(embed(q), nResults, filter)))
    {
      Unwrap(query(entries, QueryRequest(embed(q), nResults, filter)))
    }

    /** `VectorStore.get_context_for_query` */
    method GetContextForQuery(q: string, nResults: int) returns (context: string)
      ensures context == ContextFor(Search(q, nResults, None), relevanceLabel)
    {
      var results := Search(q, nResults, None);
      if results.documents == [] {
        return NO_CONTEXT;
      }
      ghost var blocks := Blocks(results, relevanceLabel);
      var contextParts: seq<string> := [];
      for i := 0 to ZipLength(results)
        invariant contextParts == blocks[..i]
      {
        var doc, metadata, distance := results.documents[i], results.metadatas[i], results.distances[i];
        var source := SourceOf(metadata);
        assert blocks[..i + 1] == blocks[..i] + [blocks[i]];
        contextParts := contextParts + [ContextBlock(i + 1, source, relevanceLabel(distance), doc)];
      }
      assert contextParts == blocks;
      context := Join("\n", contextParts);
    }
  }
}
