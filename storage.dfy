/**
 * The two on-disk caches: extraction records (one JSON object per record
 * file, mapping action keys to results) and FAISS index directories (one
 * per document digest). The filesystem is a pair of maps from path to
 * content; `json.dump` followed by `json.load` gives back the value stored.
 */
module Storage {
  import opened Wrappers
  import opened JsonValue
  import opened Actions
  import opened CachePaths

  /** The content of one record file: action key to cached result. */
  type Record = map<string, Json>

  type Vector = seq<real>

  /** A saved FAISS index: the chunks it was built from and their embeddings. */
  datatype Index = Index(chunks: seq<string>, vectors: seq<Vector>)

  /** The embedding service: one vector per text, or `None` when the call raises. */
  type Embedder = seq<string> -> Option<seq<Vector>>

  /**
   * `FAISS.from_documents`: embed every chunk, or raise if the embedding call
   * does. FAISS sizes its index from the first embedding, so an empty chunk
   * list raises as well, without calling the embedding service.
   */
  function Build(chunks: seq<string>, embed: Embedder): (built: Option<Index>)
    ensures built.Some? <==> chunks != [] && embed(chunks).Some?
    ensures built.Some? ==> built.value.chunks == chunks
  {
    if chunks == [] then None
    else
      match embed(chunks)
      case Some(vectors) => Some(Index(chunks, vectors))
      case None => None
  }

  /**
   * What `load_cached_response(filename, action)` returns: the value under
   * the action's key in the action's record, or `None` (`JNull`) when the
   * record file or the key is missing.
   */
  function Lookup(records: map<string, Record>, filename: string, action: string): Json {
    var path := RecordPath(filename, action);
    if path in records && ActionKey(action) in records[path] then records[path][ActionKey(action)]
    else JNull
  }

  /**
   * The files after `save_cached_response(filename, action, content)`: the
   * action's record (empty when the file did not exist) gains or replaces
   * the action's key; every other key of that record and every other file
   * is left as it was.
   */
  function Merge(records: map<string, Record>, filename: string, action: string, content: Json)
    : (after: map<string, Record>)
    ensures after.Keys == records.Keys + {RecordPath(filename, action)}
    ensures forall p :: p in records && p != RecordPath(filename, action) ==> after[p] == records[p]
    ensures RecordPath(filename, action) in records ==>
      after[RecordPath(filename, action)] == records[RecordPath(filename, action)][ActionKey(action) := content]
    ensures RecordPath(filename, action) !in records ==>
      after[RecordPath(filename, action)] == map[ActionKey(action) := content]
  {
    var path := RecordPath(filename, action);
    var data := if path in records then records[path] else map[];
    records[path := data[ActionKey(action) := content]]
  }

  /** Saving and then loading the same action on the same document gives back the saved content. */
  lemma SaveThenLoad(records: map<string, Record>, filename: string, action: string, content: Json)
    ensures Lookup(Merge(records, filename, action, content), filename, action) == content
  {
  }

  /**
   * Saving never changes what loading returns for an action stored in
   * another file or under another key: in particular, no other key of the
   * same record is lost by the merge.
   */
  lemma SaveKeepsOtherEntries(records: map<string, Record>, filename: string, action: string, content: Json,
                              otherName: string, other: string)
    requires RecordPath(otherName, other) != RecordPath(filename, action) || ActionKey(other) != ActionKey(action)
    ensures Lookup(Merge(records, filename, action, content), otherName, other) == Lookup(records, otherName, other)
  {
  }

  /** Results saved for two actions with different keys are both readable afterwards, in either order of saving. */
  lemma TwoSavesBothReadable(records: map<string, Record>, filename: string, a: string, x: Json, b: string, y: Json)
    requires ActionKey(a) != ActionKey(b)
    ensures var after := Merge(Merge(records, filename, a, x), filename, b, y);
      Lookup(after, filename, a) == x && Lookup(after, filename, b) == y
  {
    SaveThenLoad(records, filename, a, x);
    SaveKeepsOtherEntries(Merge(records, filename, a, x), filename, b, y, filename, a);
  }

  /** Saving "Extract Rights" and then "Extract Risks" for one document keeps both readable. */
  lemma RightsAndRisksBothReadable(records: map<string, Record>, filename: string, rights: Json, risks: Json)
    ensures var after := Merge(Merge(records, filename, RightsAction, rights), filename, RisksAction, risks);
      Lookup(after, filename, RightsAction) == rights && Lookup(after, filename, RisksAction) == risks
  {
    ActionKeysDistinct(3, 5);
    TwoSavesBothReadable(records, filename, RightsAction, rights, RisksAction, risks);
  }

  /** No record holds an entry under the chat action's key. */
  ghost predicate NoChatEntry(records: map<string, Record>) {
    forall p, k :: p in records && k in records[p] ==> k != ActionKey(ChatAction)
  }

  /** Saving the same content twice leaves the records as the first save did. */
  lemma ResaveChangesNothing(records: map<string, Record>, filename: string, action: string, content: Json)
    ensures var once := Merge(records, filename, action, content);
      Merge(once, filename, action, content) == once
  {
    var once := Merge(records, filename, action, content);
    var path := RecordPath(filename, action);
    assert Merge(once, filename, action, content)[path] == once[path];
  }

  /** Saving under any key but the chat action's keeps the record files free of chat entries. */
  lemma SaveKeepsNoChatEntry(records: map<string, Record>, filename: string, action: string, content: Json)
    requires NoChatEntry(records)
    requires ActionKey(action) != ActionKey(ChatAction)
    ensures NoChatEntry(Merge(records, filename, action, content))
  {
  }

  /**
   * The filesystem the caches live on: extraction records by path and FAISS
   * index directories by path.
   */
  class Disk {
    var records: map<string, Record>
    var indexes: map<string, Index>

    constructor (records: map<string, Record>, indexes: map<string, Index>)
      ensures this.records == records && this.indexes == indexes
    {
      this.records := records;
      this.indexes := indexes;
    }

    /** `load_cached_response`: read the action's record, if it exists, and look up the action's key. */
    method LoadCachedResponse(filename: string, action: string) returns (r: Json)
      ensures r == Lookup(records, filename, action)
    {
      var path := RecordPath(filename, action);
      r := JNull;
      if path in records {
        var data := records[path];
        var key := ActionKey(action);
        if key in data {
          r := data[key];
        }
      }
    }

    /** `save_cached_response`: read the record (or start empty), set the action's key, write it back. */
    method SaveCachedResponse(filename: string, action: string, content: Json)
      modifies this
      ensures records == Merge(old(records), filename, action, content)
      ensures indexes == old(indexes)
    {
      var path := RecordPath(filename, action);
      var data: Record := map[];
      if path in records {
        data := records[path];
      }
      var key := ActionKey(action);
      data := data[key := content];
      records := records[path := data];
    }

    /**
     * `load_or_create_vectorstore`: load the index saved for `fileHash` if its
     * directory exists; otherwise build it from `chunks` and save it there.
     * `built` tells whether a build was attempted. A build that raises (no
     * chunks, or an embedding call that raises) saves nothing.
     */
    method LoadOrCreateVectorstore(chunks: seq<string>, embed: Embedder, fileHash: string)
      returns (store: Option<Index>, ghost built: bool)
      modifies this
      ensures records == old(records)
      ensures built <==> GetFaissCacheDir(fileHash) !in old(indexes)
      ensures !built ==> store == Some(old(indexes)[GetFaissCacheDir(fileHash)]) && indexes == old(indexes)
      ensures built ==> store == Build(chunks, embed)
      ensures built && store.Some? ==> indexes == old(indexes)[GetFaissCacheDir(fileHash) := store.value]
      ensures built && store.None? ==> indexes == old(indexes)
    {
      var cacheDir := GetFaissCacheDir(fileHash);
      if cacheDir in indexes {
        built := false;
        return Some(indexes[cacheDir]), built;
      }
      built := true;
      store := Build(chunks, embed);
      if store.Some? {
        indexes := indexes[cacheDir := store.value];
      }
    }
  }

  /**
   * Build-once: after a first call that succeeds, a second call for the same
   * digest loads the saved index and never builds again (`built2` is false),
   * whatever chunks and embedder it is given.
   */
  method SecondLoadNeverBuilds(disk: Disk, chunks: seq<string>, embed: Embedder,
                               laterChunks: seq<string>, laterEmbed: Embedder, fileHash: string)
    returns (first: Option<Index>, second: Option<Index>, ghost built2: bool)
    modifies disk
    ensures first.Some? ==> !built2 && second == first
    ensures disk.records == old(disk.records)
  {
    ghost var built1;
    first, built1 := disk.LoadOrCreateVectorstore(chunks, embed, fileHash);
    second, built2 := disk.LoadOrCreateVectorstore(laterChunks, laterEmbed, fileHash);
  }
}
