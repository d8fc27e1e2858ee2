/** The knowledge-base wrapper: a lazily loaded embedding model and vector
    index, saved to and loaded from a path, that turns every failure into
    `false` or an empty result. The embedding model, the text splitter and
    the vector index's own operations are parameters. */
module KnowledgeBase {
  import opened Strings
  import opened Results

  /** The loaded embedding model. */
  datatype Embeddings = Embeddings(modelName: string)

  /** A vector index, known by the text chunks it was built from. */
  datatype FaissIndex = FaissIndex(chunks: seq<string>)

  /** A search hit. */
  datatype Document = Document(pageContent: string)

  /** The foreign calls, each `None` or `false` where the call raises:
      - `embeddingsLoad(name)`: `HuggingFaceEmbeddings(model_name=name)` succeeds;
      - `splitText(text, size, overlap)`: the recursive character splitter;
      - `fromTexts(chunks, embeddings)`: building the index;
      - `saveLocal(index, path)`: writing the index succeeds;
      - `similaritySearch(index, query, k)`: the search. */
  datatype Backend = Backend(
    embeddingsLoad: string -> bool,
    splitText: (string, int, int) -> Option<seq<string>>,
    fromTexts: (seq<string>, Embeddings) -> Option<FaissIndex>,
    saveLocal: (FaissIndex, string) -> bool,
    similaritySearch: (FaissIndex, string, int) -> Option<seq<Document>>)

  const DefaultEmbeddingModel: string := "sentence-transformers/all-MiniLM-L6-v2"
  const DefaultIndexPath: string := "faiss_index"
  const DefaultChunkSize: int := 200
  const DefaultChunkOverlap: int := 50
  const DefaultK: int := 3
  const NoResultsMessage: string := "No relevant information found in the knowledge base."

  /** `path or self.index_path`: a missing or empty path means the default. */
  function PathOrDefault(path: Option<string>, indexPath: string): string {
    if path.None? || path.value == "" then indexPath else path.value
  }

  /** `MedicalKnowledgeBase`. `disk` is the part of the file system the
      index is saved to and loaded from: the paths that exist, each with
      the index that loading it gives, or `None` when loading it raises. */
  class MedicalKnowledgeBase {
    const embeddingModelName: string
    var embeddings: Option<Embeddings>
    var faissIndex: Option<FaissIndex>
    var indexPath: string
    var disk: map<string, Option<FaissIndex>>

    /** The embedding model, once loaded, is the configured one, and an index
        is only ever present once the embedding model is. */
    ghost predicate Valid()
      reads this
    {
      && (embeddings.Some? ==> embeddings.value == Embeddings(embeddingModelName))
      && (faissIndex.Some? ==> embeddings.Some?)
    }

    /** Whether `load_embeddings` would leave a model loaded. */
    predicate EmbeddingsAvailable(be: Backend)
      reads this
    {
      embeddings.Some? || be.embeddingsLoad(embeddingModelName)
    }

    constructor (disk: map<string, Option<FaissIndex>>, embeddingModelName: string := DefaultEmbeddingModel)
      ensures Valid()
      ensures this.embeddingModelName == embeddingModelName
      ensures embeddings == None && faissIndex == None
      ensures indexPath == DefaultIndexPath && this.disk == disk
    {
      this.embeddingModelName := embeddingModelName;
      embeddings := None;
      faissIndex := None;
      indexPath := DefaultIndexPath;
      this.disk := disk;
    }

    /** `load_embeddings`: loads only when nothing is loaded, so once it has
        succeeded further calls change nothing. `ok == false` is the raise. */
    method LoadEmbeddings(be: Backend) returns (ok: bool)
      requires Valid()
      modifies this`embeddings
      ensures Valid()
      ensures old(embeddings).Some? ==> ok && embeddings == old(embeddings)
      ensures old(embeddings).None? ==> ok == be.embeddingsLoad(embeddingModelName)
      ensures embeddings == if ok then Some(Embeddings(embeddingModelName)) else None
    {
      ok := true;
      if embeddings.None? {
        if be.embeddingsLoad(embeddingModelName) {
          embeddings := Some(Embeddings(embeddingModelName));
        } else {
          ok := false;
        }
      }
    }

    /** `create_index`: builds the index from the split text and saves it
        to `index_path`. The result of saving is ignored: once the index is
        built the answer is true. Every raise before that gives false; a
        failure after loading the embedding model leaves it loaded. */
    method CreateIndex(text: string, be: Backend, chunkSize: int := DefaultChunkSize, chunkOverlap: int := DefaultChunkOverlap) returns (ok: bool)
      requires Valid()
      modifies this`embeddings, this`faissIndex, this`disk
      ensures Valid()
      ensures embeddings == if old(EmbeddingsAvailable(be)) then Some(Embeddings(embeddingModelName)) else None
      ensures ok <==>
        && old(EmbeddingsAvailable(be))
        && be.splitText(text, chunkSize, chunkOverlap).Some?
        && be.fromTexts(be.splitText(text, chunkSize, chunkOverlap).value, Embeddings(embeddingModelName)).Some?
      ensures ok ==>
        && faissIndex == be.fromTexts(be.splitText(text, chunkSize, chunkOverlap).value, Embeddings(embeddingModelName))
        && disk == if be.saveLocal(faissIndex.value, indexPath) then old(disk)[indexPath := faissIndex] else old(disk)
      ensures !ok ==> faissIndex == old(faissIndex) && disk == old(disk)
    {
      var loaded := LoadEmbeddings(be);
      if !loaded {
        return false;
      }
      var chunks := be.splitText(text, chunkSize, chunkOverlap);
      if chunks.None? {
        return false;
      }
      var index := be.fromTexts(chunks.value, embeddings.value);
      if index.None? {
        return false;
      }
      faissIndex := index;
      var _ := SaveIndex(be);
      return true;
    }

    /** `save_index`: false without writing when there is no index;
        otherwise writes to `path`, or to `index_path` when `path` is
        missing or empty, and says whether that worked. */
    method SaveIndex(be: Backend, path: Option<string> := None) returns (ok: bool)
      modifies this`disk
      ensures faissIndex.None? ==> !ok && disk == old(disk)
      ensures faissIndex.Some? ==>
        && ok == be.saveLocal(faissIndex.value, PathOrDefault(path, indexPath))
        && disk == if ok then old(disk)[PathOrDefault(path, indexPath) := faissIndex] else old(disk)
    {
      if faissIndex.None? {
        return false;
      }
      var savePath := PathOrDefault(path, indexPath);
      ok := be.saveLocal(faissIndex.value, savePath);
      if ok {
        disk := disk[savePath := faissIndex];
      }
    }

    /** `load_index`: false with nothing changed when the path does not
        exist; otherwise loads the embedding model if needed and then the
        index, which becomes current exactly when everything succeeded.
        Refusing unsafe deserialisation makes the load raise. */
    method LoadIndex(be: Backend, path: Option<string> := None, allowDangerous: bool := true) returns (ok: bool)
      requires Valid()
      modifies this`embeddings, this`faissIndex
      ensures Valid()
      ensures PathOrDefault(path, indexPath) !in disk ==>
        !ok && embeddings == old(embeddings) && faissIndex == old(faissIndex)
      ensures PathOrDefault(path, indexPath) in disk ==>
        && embeddings == (if old(EmbeddingsAvailable(be)) then Some(Embeddings(embeddingModelName)) else None)
        && ok == (old(EmbeddingsAvailable(be)) && allowDangerous && disk[PathOrDefault(path, indexPath)].Some?)
        && faissIndex == if ok then disk[PathOrDefault(path, indexPath)] else old(faissIndex)
    {
      var loadPath := PathOrDefault(path, indexPath);
      if loadPath !in disk {
        return false;
      }
      var loaded := LoadEmbeddings(be);
      if !loaded {
        return false;
      }
      if !allowDangerous || disk[loadPath].None? {
        return false;
      }
      faissIndex := disk[loadPath];
      return true;
    }

    /** `query`: loads the index from `index_path` if there is none; with no
        index, or when the search raises, the answer is empty. */
    method Query(queryText: string, be: Backend, k: int := DefaultK) returns (docs: seq<Document>)
      requires Valid()
      modifies this`embeddings, this`faissIndex
      ensures Valid()
      ensures old(faissIndex).Some? ==> faissIndex == old(faissIndex) && embeddings == old(embeddings)
      ensures old(faissIndex).None? ==>
        faissIndex == if indexPath in disk && disk[indexPath].Some? && old(EmbeddingsAvailable(be))
                      then disk[indexPath] else None
      ensures old(faissIndex).None? ==>
        embeddings == if indexPath in disk && old(EmbeddingsAvailable(be))
                      then Some(Embeddings(embeddingModelName)) else old(embeddings)
      ensures faissIndex.None? ==> docs == []
      ensures faissIndex.Some? ==>
        docs == match be.similaritySearch(faissIndex.value, queryText, k)
                case Some(found) => found
                case None => []
    {
      if faissIndex.None? {
        var success := LoadIndex(be);
        if !success {
          return [];
        }
      }
      var found := be.similaritySearch(faissIndex.value, queryText, k);
      if found.None? {
        return [];
      }
      return found.value;
    }
  }

  /** The block for the i-th document (from 0): "Result {i+1}:\n{content}\n". */
  function ResultEntry(i: nat, doc: Document): string {
    "Result " + NatToString(i + 1) + ":\n" + doc.pageContent + "\n"
  }

  function ResultEntries(docs: seq<Document>): seq<string> {
    seq(|docs|, i requires 0 <= i < |docs| => ResultEntry(i, docs[i]))
  }

  /** `format_query_results`: an empty list gives the fallback message; any
      other list gives the blocks joined by "\n", so the text opens with
      the first document's block, "Result 1:\n...". */
  function FormatQueryResults(docs: seq<Document>): (text: string)
    ensures |docs| == 0 ==> text == NoResultsMessage
    ensures |docs| > 0 ==> StartsWith(text, "Result 1:\n" + docs[0].pageContent + "\n")
  {
    if |docs| == 0 then NoResultsMessage
    else
      var entries := ResultEntries(docs);
      JoinAt("\n", entries, 0);
      assert JoinOffset("\n", entries, 0) == 0;
      assert NatToString(1) == "1";
      Join("\n", entries)
  }

  /** The formatted results are the documents in input order, the i-th
      (from 0) as "Result {i+1}:\n{content}\n", separated by "\n"; the
      numbers are distinct because decimal printing is injective. */
  lemma FormatQueryResultsLayout(docs: seq<Document>, i: nat)
    requires i < |docs|
    ensures var text := FormatQueryResults(docs);
      var off := JoinOffset("\n", ResultEntries(docs), i);
      var entry := "Result " + NatToString(i + 1) + ":\n" + docs[i].pageContent + "\n";
      && off + |entry| <= |text|
      && text[off..off + |entry|] == entry
      && (i + 1 < |docs| ==> off + |entry| < |text| && text[off + |entry|] == '\n')
      && (i + 1 == |docs| ==> off + |entry| == |text|)
  {
    var entries := ResultEntries(docs);
    JoinLinesAt(entries, i, FormatQueryResults(docs), entries[i], JoinOffset("\n", entries, i));
  }
}
