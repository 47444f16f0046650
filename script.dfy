/**
 * One run of the Streamlit script for an uploaded document: derive the
 * prompt text, load or build the document's index, set up the chat chain,
 * and dispatch the selected action. Streamlit re-runs the whole script on
 * every interaction, so a session is a sequence of such runs.
 */
module Script {
  import opened Wrappers
  import opened Prompts
  import opened CachePaths
  import opened Storage
  import opened Actions
  import opened Conversation
  import opened Dispatcher

  /**
   * The index a run works with: the one saved under the document's digest,
   * or else what building it from the chunks gives (`None` when the
   * embedding call raises).
   */
  function IndexFor(indexes: map<string, Index>, chunks: seq<string>, embed: Embedder, fileHash: string)
    : Option<Index>
  {
    if GetFaissCacheDir(fileHash) in indexes then Some(indexes[GetFaissCacheDir(fileHash)])
    else Build(chunks, embed)
  }

  /**
   * The script as written, for an uploaded document with digest `fileHash`
   * split into `chunks`; `templates` are the prompt texts it runs with
   * (`Catalogue()`). The index is loaded or built before the action is
   * looked at, so an embedding call that raises ends the run whatever the
   * action. A fresh, empty chat memory is created on every run, so the
   * chat chain is always asked with an empty history.
   */
  method RunUpload(templates: Templates, disk: Disk, fileHash: string, chunks: seq<string>, action: string, query: string,
                   llm: ChatModel, parse: Parser, embed: Embedder, answerer: Answerer)
    returns (outcome: Outcome)
    modifies disk
    ensures var dir := GetFaissCacheDir(fileHash);
      disk.indexes == if dir !in old(disk.indexes) && IndexFor(old(disk.indexes), chunks, embed, fileHash).Some?
                      then old(disk.indexes)[dir := IndexFor(old(disk.indexes), chunks, embed, fileHash).value]
                      else old(disk.indexes)
    ensures var store := IndexFor(old(disk.indexes), chunks, embed, fileHash);
      (store.None? ==> outcome == Raised && disk.records == old(disk.records)) &&
      (store.Some? ==>
         Step(outcome, disk.records) ==
         DispatchSpec(templates, AsWritten, old(disk.records), fileHash, action, FullText(chunks), query, [],
                      store.value, llm, parse, answerer))
  {
    var fullText := FullText(chunks);
    ghost var built;
    var vectorstore;
    vectorstore, built := disk.LoadOrCreateVectorstore(chunks, embed, fileHash);
    if vectorstore.None? {
      return Raised;
    }
    var memory := new ChatMemory();
    var chain := new QaChain(vectorstore.value, memory);
    outcome := Dispatch(templates, AsWritten, disk, chain, memory, fileHash, action, fullText, query, llm, parse, answerer);
  }

  /**
   * The run as evidently intended: the chat memory belongs to the browser
   * session and outlives the run, so each question is asked with the turns
   * answered before it, and an answered question is added to them.
   */
  method RunUploadInSession(templates: Templates, disk: Disk, session: ChatMemory, fileHash: string, chunks: seq<string>, action: string,
                            query: string, llm: ChatModel, parse: Parser, embed: Embedder, answerer: Answerer)
    returns (outcome: Outcome)
    requires session.Valid()
    modifies disk, session
    ensures session.Valid()
    ensures var dir := GetFaissCacheDir(fileHash);
      disk.indexes == if dir !in old(disk.indexes) && IndexFor(old(disk.indexes), chunks, embed, fileHash).Some?
                      then old(disk.indexes)[dir := IndexFor(old(disk.indexes), chunks, embed, fileHash).value]
                      else old(disk.indexes)
    ensures var store := IndexFor(old(disk.indexes), chunks, embed, fileHash);
      (store.None? ==> outcome == Raised && disk.records == old(disk.records) && session.turns == old(session.turns)) &&
      (store.Some? ==>
         Step(outcome, disk.records) ==
         DispatchSpec(templates, Corrected, old(disk.records), fileHash, action, FullText(chunks), query, old(session.messages),
                      store.value, llm, parse, answerer))
    ensures session.turns == if outcome.Answered? then old(session.turns) + [Turn(query, outcome.answer)]
                             else old(session.turns)
  {
    var fullText := FullText(chunks);
    ghost var built;
    var vectorstore;
    vectorstore, built := disk.LoadOrCreateVectorstore(chunks, embed, fileHash);
    if vectorstore.None? {
      return Raised;
    }
    var chain := new QaChain(vectorstore.value, session);
    outcome := Dispatch(templates, Corrected, disk, chain, session, fileHash, action, fullText, query, llm, parse, answerer);
  }

  /** A chain that reports whether it was given any history. */
  function HistoryProbe(): Answerer {
    (index: Index, question: string, history: seq<Message>) =>
      Some(ChainResult(if history == [] then "no history" else "with history", []))
  }

  /**
   * As written, a follow-up question is asked without the first exchange:
   * two chat runs in a row, and the second still sees no history.
   */
  method FollowUpForgetsAsWritten(templates: Templates, disk: Disk, fileHash: string, chunks: seq<string>, llm: ChatModel, parse: Parser,
                                  embed: Embedder)
    returns (first: Outcome, second: Outcome)
    requires GetFaissCacheDir(fileHash) in disk.indexes
    requires NoChatEntry(disk.records)
    modifies disk
    ensures first == Answered("no history", [])
    ensures second == Answered("no history", [])
  {
    ChatNeverServedFromCache(templates, AsWritten, disk.records, fileHash, FullText(chunks), "q1", [],
                             disk.indexes[GetFaissCacheDir(fileHash)], llm, parse, HistoryProbe());
    first := RunUpload(templates, disk, fileHash, chunks, ChatAction, "q1", llm, parse, embed, HistoryProbe());
    ChatNeverServedFromCache(templates, AsWritten, disk.records, fileHash, FullText(chunks), "q2", [],
                             disk.indexes[GetFaissCacheDir(fileHash)], llm, parse, HistoryProbe());
    second := RunUpload(templates, disk, fileHash, chunks, ChatAction, "q2", llm, parse, embed, HistoryProbe());
  }

  /** With the session's memory, the follow-up question is asked with the first exchange. */
  method FollowUpRemembersInSession(templates: Templates, disk: Disk, fileHash: string, chunks: seq<string>, llm: ChatModel, parse: Parser,
                                    embed: Embedder)
    returns (first: Outcome, second: Outcome)
    requires GetFaissCacheDir(fileHash) in disk.indexes
    requires NoChatEntry(disk.records)
    modifies disk
    ensures first == Answered("no history", [])
    ensures second == Answered("with history", [])
  {
    var session := new ChatMemory();
    ChatNeverServedFromCache(templates, Corrected, disk.records, fileHash, FullText(chunks), "q1", [],
                             disk.indexes[GetFaissCacheDir(fileHash)], llm, parse, HistoryProbe());
    first := RunUploadInSession(templates, disk, session, fileHash, chunks, ChatAction, "q1", llm, parse, embed, HistoryProbe());
    ChatNeverServedFromCache(templates, Corrected, disk.records, fileHash, FullText(chunks), "q2", session.messages,
                             disk.indexes[GetFaissCacheDir(fileHash)], llm, parse, HistoryProbe());
    second := RunUploadInSession(templates, disk, session, fileHash, chunks, ChatAction, "q2", llm, parse, embed, HistoryProbe());
  }
}
