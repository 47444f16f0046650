/**
 * The action dispatcher: look the action up in the extraction cache, treat
 * only a truthy value as a hit, otherwise route on the action name (entity
 * extraction, obligation extraction with a parse-or-fallback step, a chat
 * turn, or a template-plus-text action) and save what was computed.
 */
module Dispatcher {
  import opened Wrappers
  import opened Text
  import opened JsonValue
  import opened Actions
  import opened Prompts
  import opened CachePaths
  import opened Storage
  import opened Conversation

  /** `json.loads`: the decoded value, or `None` when the text is not JSON. */
  type Parser = string -> Option<Json>

  /** How many leading chunks the one-shot extraction prompts see. */
  const PrefixChunks: nat := 5

  /** `" ".join(chunk.page_content for chunk in chunks[:5])`. */
  function FullText(chunks: seq<string>): string {
    Join(" ", chunks[..if |chunks| < PrefixChunks then |chunks| else PrefixChunks])
  }

  /** Chunks after the fifth never reach an extraction prompt. */
  lemma FullTextOnlySeesPrefix(chunks: seq<string>, more: seq<string>)
    requires |chunks| >= PrefixChunks
    ensures FullText(chunks + more) == FullText(chunks)
  {
    assert (chunks + more)[..PrefixChunks] == chunks[..PrefixChunks];
  }

  /** One entry of the entity result: the bold entity label, a colon, the model's answer. */
  function Labelled(entity: string, answer: string): string {
    "**" + entity + "**: " + answer
  }

  /**
   * The entity results for `items`, asked in order: `None` as soon as one
   * model call raises, otherwise one labelled answer per item.
   */
  function EntityAnswers(items: seq<EntityPrompt>, llm: ChatModel, text: string): Option<seq<string>>
    decreases |items|
  {
    if items == [] then Some([])
    else
      var last := items[|items| - 1];
      match EntityAnswers(items[..|items| - 1], llm, text)
      case None => None
      case Some(done) =>
        match llm(EntityMessages(last, text))
        case None => None
        case Some(reply) => Some(done + [Labelled(last.entity, reply)])
  }

  /**
   * Entity extraction yields a result exactly when every model call returns;
   * the result then has one entry per entity, in the declared order, each
   * the entity's label followed by the answer to that entity's prompt.
   */
  lemma {:induction false} EntityAnswersShape(items: seq<EntityPrompt>, llm: ChatModel, text: string)
    ensures EntityAnswers(items, llm, text).Some? <==>
      forall i :: 0 <= i < |items| ==> llm(EntityMessages(items[i], text)).Some?
    ensures EntityAnswers(items, llm, text).Some? ==>
      var r := EntityAnswers(items, llm, text).value;
      |r| == |items| &&
      forall i :: 0 <= i < |items| ==> r[i] == Labelled(items[i].entity, llm(EntityMessages(items[i], text)).value)
    decreases |items|
  {
    if items != [] {
      var init := items[..|items| - 1];
      EntityAnswersShape(init, llm, text);
      assert forall i :: 0 <= i < |init| ==> init[i] == items[i];
    }
  }

  /**
   * On the assistant's own `prompts_list`, the entity result has seven
   * entries, from "Agreement Type" to "Parties Address" in declaration
   * order, each labelled with its entity and carrying the answer to that
   * entity's prompt.
   */
  lemma EntityResultOnPromptsList(llm: ChatModel, text: string)
    ensures EntityAnswers(PromptsList, llm, text).Some? <==>
      forall i :: 0 <= i < |PromptsList| ==> llm(EntityMessages(PromptsList[i], text)).Some?
    ensures EntityAnswers(PromptsList, llm, text).Some? ==>
      var r := EntityAnswers(PromptsList, llm, text).value;
      |r| == 7 &&
      r[0] == Labelled("Agreement Type", llm(EntityMessages(PromptsList[0], text)).value) &&
      r[1] == Labelled("Parties Involved", llm(EntityMessages(PromptsList[1], text)).value) &&
      r[2] == Labelled("Effective Date", llm(EntityMessages(PromptsList[2], text)).value) &&
      r[3] == Labelled("Governing Law", llm(EntityMessages(PromptsList[3], text)).value) &&
      r[4] == Labelled("Dispute Resolution", llm(EntityMessages(PromptsList[4], text)).value) &&
      r[5] == Labelled("Effect of Termination", llm(EntityMessages(PromptsList[5], text)).value) &&
      r[6] == Labelled("Parties Address", llm(EntityMessages(PromptsList[6], text)).value)
  {
    EntityAnswersShape(PromptsList, llm, text);
  }

  /**
   * The entity branch: ask about each entity of `prompts_list` in turn and
   * collect the labelled answers; a raising call ends the branch.
   */
  method ExtractEntities(items: seq<EntityPrompt>, llm: ChatModel, text: string) returns (result: Option<seq<string>>)
    ensures result == EntityAnswers(items, llm, text)
  {
    var entities: seq<string> := [];
    var i := 0;
    while i < |items|
      invariant 0 <= i <= |items|
      invariant EntityAnswers(items[..i], llm, text) == Some(entities)
    {
      var item := items[i];
      var response := llm(EntityMessages(item, text));
      if response.None? {
        EntityAnswersShape(items, llm, text);
        return None;
      }
      entities := entities + [Labelled(item.entity, response.value)];
      assert items[..i + 1][..i] == items[..i];
      i := i + 1;
    }
    assert items[..i] == items;
    result := Some(entities);
  }

  /**
   * The obligation branch as the source has it: the parsed reply, or the
   * one-element list of the raw reply when it does not parse; `None` when
   * the result display then raises, because the parsed value is a JSON
   * scalar (`null`, a boolean or a number) that `enumerate` cannot walk, so
   * the save after it never runs.
   */
  function ObligationsAsWritten(raw: string, parse: Parser): Option<Json> {
    match parse(raw)
    case None => Some(JArr([JStr(raw)]))
    case Some(parsed) => if Listable(parsed) then Some(parsed) else None
  }

  /** A parser for which the reply "42" decodes to the number 42. */
  function NumberReplyParser(): Parser {
    s => if s == "42" then Some(JNum(42.0)) else None
  }

  /** The reply "42" parses, the display of the number raises, and nothing is saved. */
  lemma ScalarReplyEscapes()
    ensures ObligationsAsWritten("42", NumberReplyParser()) == None
  {
  }

  /**
   * The obligation result with the fallback applied to every value the
   * display cannot list: always listable, the parsed value when it is a
   * list, object or string, and otherwise the one-element list of the raw
   * reply. It never fails.
   */
  function ObligationsResult(raw: string, parse: Parser): (parsed: Json)
    ensures Listable(parsed)
    ensures parse(raw).Some? && Listable(parse(raw).value) ==> parsed == parse(raw).value
    ensures !(parse(raw).Some? && Listable(parse(raw).value)) ==> parsed == JArr([JStr(raw)])
  {
    match parse(raw)
    case Some(v) => if Listable(v) then v else JArr([JStr(raw)])
    case None => JArr([JStr(raw)])
  }

  /**
   * The corrected result agrees with the source wherever the source saves
   * something, and the source fails exactly on replies that parse to a
   * scalar.
   */
  lemma CorrectionAgreesWithSource(raw: string, parse: Parser)
    ensures ObligationsAsWritten(raw, parse).Some? ==> ObligationsAsWritten(raw, parse).value == ObligationsResult(raw, parse)
    ensures ObligationsAsWritten(raw, parse).None? <==> parse(raw).Some? && !Listable(parse(raw).value)
  {
  }

  /** A reply that does not parse falls back to a one-element list, which is always a cache hit next time. */
  lemma FallbackIsTruthy(raw: string, parse: Parser)
    requires parse(raw).None?
    ensures ObligationsResult(raw, parse) == JArr([JStr(raw)])
    ensures Truthy(ObligationsResult(raw, parse))
  {
  }

  /**
   * How the obligation branch treats a reply that parses to a JSON scalar:
   * as the source does (the display raises and nothing is saved), or with
   * the fallback applied (`ObligationsResult`).
   */
  datatype Handling = AsWritten | Corrected

  /** The obligation value to save for the reply `raw`, or `None` when the branch raises before saving. */
  function ObligationsStep(handling: Handling, raw: string, parse: Parser): Option<Json> {
    match handling
    case AsWritten => ObligationsAsWritten(raw, parse)
    case Corrected => Some(ObligationsResult(raw, parse))
  }

  /** What one request shows. */
  datatype Outcome =
    | Idle                                        // no action, an empty question, or an action without a prompt
    | FromCache(value: Json)                      // a truthy cached result
    | Computed(value: Json)                       // a freshly computed and saved result
    | Answered(answer: string, sources: seq<string>)  // a chat answer and its source chunks
    | Raised                                      // a remote call raised; the request stopped there

  /** The outcome of one request and the record files afterwards. */
  datatype Step = Step(outcome: Outcome, records: map<string, Record>)

  /**
   * One request for `action` on the document `fileHash` whose prefix text
   * is `fullText`, with `history` the chat buffer before the turn.
   */
  function DispatchSpec(templates: Templates, handling: Handling, records: map<string, Record>, fileHash: string, action: string, fullText: string,
                        query: string, history: seq<Message>, index: Index,
                        llm: ChatModel, parse: Parser, answerer: Answerer): Step
  {
    if action == [] then Step(Idle, records)
    else
      var cached := Lookup(records, fileHash, action);
      if Truthy(cached) then Step(FromCache(cached), records)
      else if action == EntitiesAction then
        match EntityAnswers(templates.entities, llm, fullText)
        case None => Step(Raised, records)
        case Some(entities) =>
          Step(Computed(StringList(entities)), Merge(records, fileHash, action, StringList(entities)))
      else if action == ObligationsAction then
        match llm(ObligationMessages(templates, fullText))
        case None => Step(Raised, records)
        case Some(raw) =>
          match ObligationsStep(handling, raw, parse)
          case None => Step(Raised, records)
          case Some(parsed) => Step(Computed(parsed), Merge(records, fileHash, action, parsed))
      else if action == ChatAction then
        if query == [] then Step(Idle, records)
        else
          match answerer(index, query, history)
          case None => Step(Raised, records)
          case Some(result) => Step(Answered(result.answer, result.sources), records)
      else if action in templates.freeText then
        match llm(FreeTextMessages(templates.freeText[action], fullText))
        case None => Step(Raised, records)
        case Some(raw) => Step(Computed(JStr(raw)), Merge(records, fileHash, action, JStr(raw)))
      else Step(Idle, records)
  }

  /**
   * The corrected obligation handling changes one kind of request only: an
   * obligation request whose reply parses to a scalar, where the source
   * raises and writes nothing and the correction saves the fallback.
   */
  lemma CorrectionChangesOnlyScalarReplies(templates: Templates, records: map<string, Record>, fileHash: string,
                                           action: string, fullText: string, query: string, history: seq<Message>,
                                           index: Index, llm: ChatModel, parse: Parser, answerer: Answerer)
    ensures var w := DispatchSpec(templates, AsWritten, records, fileHash, action, fullText, query, history, index, llm, parse, answerer);
      var c := DispatchSpec(templates, Corrected, records, fileHash, action, fullText, query, history, index, llm, parse, answerer);
      w == c ||
      (action == ObligationsAction && w == Step(Raised, records) && c.outcome.Computed? &&
       c.outcome.value == JArr([JStr(llm(ObligationMessages(templates, fullText)).value)]))
  {
    var reply := llm(ObligationMessages(templates, fullText));
    if reply.Some? {
      CorrectionAgreesWithSource(reply.value, parse);
    }
  }

  /**
   * The request handler: load the cached value, serve it when truthy,
   * otherwise run the action's branch and save what it computed (never for
   * the chat action).
   */
  method Dispatch(templates: Templates, handling: Handling, disk: Disk, chain: QaChain, memory: ChatMemory, fileHash: string, action: string,
                  fullText: string, query: string, llm: ChatModel, parse: Parser, answerer: Answerer)
    returns (outcome: Outcome)
    requires memory.Valid()
    modifies disk, chain, memory
    ensures memory.Valid()
    ensures Step(outcome, disk.records) ==
      DispatchSpec(templates, handling, old(disk.records), fileHash, action, fullText, query, old(memory.messages),
                   chain.index, llm, parse, answerer)
    ensures disk.indexes == old(disk.indexes)
    ensures memory.turns == if outcome.Answered? then old(memory.turns) + [Turn(query, outcome.answer)]
                            else old(memory.turns)
  {
    if action == [] {
      return Idle;
    }
    var cacheData := disk.LoadCachedResponse(fileHash, action);
    if Truthy(cacheData) {
      return FromCache(cacheData);
    }
    if action == EntitiesAction {
      var entities := ExtractEntities(templates.entities, llm, fullText);
      if entities.None? {
        return Raised;
      }
      var content := StringList(entities.value);
      disk.SaveCachedResponse(fileHash, action, content);
      outcome := Computed(content);
    } else if action == ObligationsAction {
      var result := llm(ObligationMessages(templates, fullText));
      if result.None? {
        return Raised;
      }
      var parsed := ObligationsStep(handling, result.value, parse);
      if parsed.None? {
        return Raised;
      }
      disk.SaveCachedResponse(fileHash, action, parsed.value);
      outcome := Computed(parsed.value);
    } else if action == ChatAction {
      if query == [] {
        return Idle;
      }
      var fullResult := ChatTurn(chain, memory, query, answerer);
      if fullResult.None? {
        return Raised;
      }
      outcome := Answered(fullResult.value.answer, fullResult.value.sources);
    } else if action in templates.freeText {
      var result := llm(FreeTextMessages(templates.freeText[action], fullText));
      if result.None? {
        return Raised;
      }
      disk.SaveCachedResponse(fileHash, action, JStr(result.value));
      outcome := Computed(JStr(result.value));
    } else {
      outcome := Idle;
    }
  }

  /** The actions whose computed result is saved. */
  predicate Saves(templates: Templates, action: string) {
    action == EntitiesAction || action == ObligationsAction || action in templates.freeText
  }

  /**
   * A request writes only when it computed a result, and then writes exactly
   * that result under its own action: hits, chat turns, raised calls and
   * unknown actions leave every record as it was.
   */
  lemma WritesOnlyComputedResults(templates: Templates, handling: Handling, records: map<string, Record>, fileHash: string, action: string, fullText: string,
                                  query: string, history: seq<Message>, index: Index,
                                  llm: ChatModel, parse: Parser, answerer: Answerer)
    ensures var s := DispatchSpec(templates, handling, records, fileHash, action, fullText, query, history, index, llm, parse, answerer);
      (s.outcome.Computed? ==> Saves(templates, action) && s.records == Merge(records, fileHash, action, s.outcome.value)) &&
      (!s.outcome.Computed? ==> s.records == records)
  {
  }

  /**
   * A request changes no cached answer except its own: every other action,
   * on this document or another, loads what it loaded before.
   */
  lemma OnlyItsOwnEntryChanges(templates: Templates, handling: Handling, records: map<string, Record>, fileHash: string, action: string, fullText: string,
                               query: string, history: seq<Message>, index: Index,
                               llm: ChatModel, parse: Parser, answerer: Answerer,
                               otherHash: string, other: string)
    requires RecordPath(otherHash, other) != RecordPath(fileHash, action) || ActionKey(other) != ActionKey(action)
    ensures var s := DispatchSpec(templates, handling, records, fileHash, action, fullText, query, history, index, llm, parse, answerer);
      Lookup(s.records, otherHash, other) == Lookup(records, otherHash, other)
  {
    var s := DispatchSpec(templates, handling, records, fileHash, action, fullText, query, history, index, llm, parse, answerer);
    WritesOnlyComputedResults(templates, handling, records, fileHash, action, fullText, query, history, index, llm, parse, answerer);
    if s.outcome.Computed? {
      SaveKeepsOtherEntries(records, fileHash, action, s.outcome.value, otherHash, other);
    }
  }

  /**
   * Asking again after a truthy result was computed is a cache hit: the same
   * value comes back, no model is consulted (any model, parser and chain
   * give the same step) and nothing is written.
   */
  lemma RepeatIsServedFromCache(templates: Templates, handling: Handling, records: map<string, Record>, fileHash: string, action: string, fullText: string,
                                query: string, history: seq<Message>, index: Index,
                                llm: ChatModel, parse: Parser, answerer: Answerer,
                                fullText2: string, query2: string, history2: seq<Message>, index2: Index,
                                llm2: ChatModel, parse2: Parser, answerer2: Answerer)
    requires var s := DispatchSpec(templates, handling, records, fileHash, action, fullText, query, history, index, llm, parse, answerer);
      s.outcome.Computed? && Truthy(s.outcome.value)
    ensures var s := DispatchSpec(templates, handling, records, fileHash, action, fullText, query, history, index, llm, parse, answerer);
      DispatchSpec(templates, handling, s.records, fileHash, action, fullText2, query2, history2, index2, llm2, parse2, answerer2)
        == Step(FromCache(s.outcome.value), s.records)
  {
    var s := DispatchSpec(templates, handling, records, fileHash, action, fullText, query, history, index, llm, parse, answerer);
    WritesOnlyComputedResults(templates, handling, records, fileHash, action, fullText, query, history, index, llm, parse, answerer);
    SaveThenLoad(records, fileHash, action, s.outcome.value);
  }

  /**
   * A falsy result (an empty list such as obligations parsed from "[]", or an
   * empty reply) is saved but never served: asking again, with any model,
   * parser and chain, misses the cache.
   */
  lemma FalsyResultIsNeverServed(templates: Templates, handling: Handling, records: map<string, Record>, fileHash: string,
                                 action: string, fullText: string, query: string, history: seq<Message>, index: Index,
                                 llm: ChatModel, parse: Parser, answerer: Answerer,
                                 fullText2: string, query2: string, history2: seq<Message>, index2: Index,
                                 llm2: ChatModel, parse2: Parser, answerer2: Answerer)
    requires var s := DispatchSpec(templates, handling, records, fileHash, action, fullText, query, history, index, llm, parse, answerer);
      s.outcome.Computed? && !Truthy(s.outcome.value)
    ensures var s := DispatchSpec(templates, handling, records, fileHash, action, fullText, query, history, index, llm, parse, answerer);
      !DispatchSpec(templates, handling, s.records, fileHash, action, fullText2, query2, history2, index2, llm2, parse2, answerer2)
        .outcome.FromCache?
  {
    var s := DispatchSpec(templates, handling, records, fileHash, action, fullText, query, history, index, llm, parse, answerer);
    WritesOnlyComputedResults(templates, handling, records, fileHash, action, fullText, query, history, index, llm, parse, answerer);
    SaveThenLoad(records, fileHash, action, s.outcome.value);
  }

  /**
   * With a model that gives the same reply, repeating a request whose result
   * was falsy recomputes the same value and leaves the files as they are.
   */
  lemma FalsyResultIsRecomputed(templates: Templates, handling: Handling, records: map<string, Record>, fileHash: string,
                                action: string, fullText: string, query: string, history: seq<Message>, index: Index,
                                llm: ChatModel, parse: Parser, answerer: Answerer)
    requires var s := DispatchSpec(templates, handling, records, fileHash, action, fullText, query, history, index, llm, parse, answerer);
      s.outcome.Computed? && !Truthy(s.outcome.value)
    ensures var s := DispatchSpec(templates, handling, records, fileHash, action, fullText, query, history, index, llm, parse, answerer);
      DispatchSpec(templates, handling, s.records, fileHash, action, fullText, query, history, index, llm, parse, answerer) == s
  {
    var s := DispatchSpec(templates, handling, records, fileHash, action, fullText, query, history, index, llm, parse, answerer);
    WritesOnlyComputedResults(templates, handling, records, fileHash, action, fullText, query, history, index, llm, parse, answerer);
    SaveThenLoad(records, fileHash, action, s.outcome.value);
    ResaveChangesNothing(records, fileHash, action, s.outcome.value);
  }

  /**
   * Every action that saves stores its result under a key other than the
   * chat action's. `Prompts.CatalogueKeys` shows that the app's own
   * `prompt_map` meets the requirement on the free-text templates.
   */
  lemma SavedKeyIsNotChat(templates: Templates, action: string)
    requires templates.freeText.Keys == FreeTextActions
    requires Saves(templates, action)
    ensures ActionKey(action) != ActionKey(ChatAction)
  {
    ChatKeyLength();
    if action in FreeTextActions {
      FreeTextActionCases(action);
    }
    if action == EntitiesAction {
      EntitiesKeyLength();
    } else if action == ObligationsAction {
      ObligationsKeyLength();
    } else if action == ResponsibilitiesAction {
      ResponsibilitiesKeyLength();
    } else if action == RightsAction {
      RightsKeyLength();
    } else if action == LicenseTypeAction {
      LicenseTypeKeyLength();
    } else if action == RisksAction {
      RisksKeyLength();
    } else {
      ComplianceKeyLength();
    }
  }

  /**
   * No request ever stores an entry under the chat action's key, for
   * templates keyed like the app's own `prompt_map` (`Prompts.CatalogueKeys`).
   */
  lemma NoChatEntryPreserved(templates: Templates, handling: Handling, records: map<string, Record>, fileHash: string, action: string, fullText: string,
                             query: string, history: seq<Message>, index: Index,
                             llm: ChatModel, parse: Parser, answerer: Answerer)
    requires templates.freeText.Keys == FreeTextActions
    requires NoChatEntry(records)
    ensures NoChatEntry(DispatchSpec(templates, handling, records, fileHash, action, fullText, query, history, index, llm, parse, answerer).records)
  {
    var s := DispatchSpec(templates, handling, records, fileHash, action, fullText, query, history, index, llm, parse, answerer);
    WritesOnlyComputedResults(templates, handling, records, fileHash, action, fullText, query, history, index, llm, parse, answerer);
    if s.outcome.Computed? {
      SavedKeyIsNotChat(templates, action);
      SaveKeepsNoChatEntry(records, fileHash, action, s.outcome.value);
    }
  }

  /** On record files written only by requests, the chat action is never served from the cache. */
  lemma ChatNeverServedFromCache(templates: Templates, handling: Handling, records: map<string, Record>, fileHash: string, fullText: string,
                                 query: string, history: seq<Message>, index: Index,
                                 llm: ChatModel, parse: Parser, answerer: Answerer)
    requires NoChatEntry(records)
    ensures !DispatchSpec(templates, handling, records, fileHash, ChatAction, fullText, query, history, index, llm, parse, answerer).outcome.FromCache?
  {
    var path := RecordPath(fileHash, ChatAction);
    assert path in records ==> ActionKey(ChatAction) !in records[path];
  }
}
