# Legal Document AI Assistant — caching and dispatch core, in Dafny

This project models the core of `main.py` in the Legal Document AI Assistant, a Streamlit app. For an uploaded contract, the core does four things:

- It keeps an extraction cache of JSON record files. Each record belongs to one document, identified by the SHA-256 digest of its bytes, and to one of two namespaces: `_entities_obligations` and `_other_actions`.
- It keeps a build-once FAISS index per digest.
- It dispatches the selected sidebar action:
  - entity extraction over `prompts_list`;
  - obligation extraction, with a fallback when the reply does not parse;
  - five free-text actions, one template plus the text each;
  - "Chat with PDF", a retrieval chain with a conversation buffer.
- It saves what it computed, so that the next request can be answered from the cache.

The chat model, the embedding service, `json.loads` and the retrieval chain are function-typed parameters. Each returns `Option`, and `None` means the call raised (for `json.loads`: the reply is not JSON).

Modules, in dependency order:

- `Wrappers` (`wrappers.dfy`): `Option`.
- `Text` (`text.dfy`): the parts of Python's `str` and `os.path` that the core uses.
  - `str.replace(p, "")` is modelled as `RemoveAll`, which removes non-overlapping occurrences left to right.
  - `lower()` is modelled for ASCII.
  - `Join`, for `" ".join`.
  - `os.path.join` for two parts, where an absolute second part wins.
- `JsonValue` (`json_value.dfy`): JSON values and Python truthiness. `JNull` also stands for Python `None`.
- `Actions` (`actions.dfy`): the action names the sidebar offers.
- `Prompts` (`prompts.dfy`): `prompts_list`, the templates of `prompts.py` and the shape of the messages sent to the model.
- `CachePaths` (`cache_paths.dfy`): the record file paths, the FAISS directory and the key derived from an action name.
- `Storage` (`storage.dfy`): the specification functions `Lookup` and `Merge` for the record files, and the class `Disk`.
  - `Disk` holds the record files and the index directories.
  - Its methods are `load_cached_response`, `save_cached_response` and `load_or_create_vectorstore`.
- `Conversation` (`conversation.dfy`): the conversation buffer (`ChatMemory`), the chain object (`QaChain`) and one chat turn (`ChatTurn`).
- `Dispatcher` (`dispatch.dfy`): the dispatch block. `DispatchSpec` is its specification as a function over the record files, and `Dispatch` is the method that proves it. Both take the obligation handling: `AsWritten`, as the source does, or `Corrected`, with the fix from the first finding.
- `Script` (`script.dfy`): one Streamlit run for an uploaded document. It derives the prefix text, loads or builds the index, creates the chain and dispatches.

Where the code and the documented design of the app differ, the model follows the code:

- The code consults the extraction cache for every non-empty action, including "Chat with PDF" (main.py:184-186). `Dispatcher.ChatNeverServedFromCache` proves that this lookup misses as long as only requests write the record files.
- The code takes no lock and does not write files atomically, so the model promises nothing about concurrent runs.

## Model

| member | source | states |
|---|---|---|
| CachePaths.DigestRecordFile | main.py:48-60 | For a document with hex digest h, "Extract Entities" and "Extract Obligations" use `caches/<h>_entities_obligations.json` and every other action uses `caches/<h>_other_actions.json`. |
| CachePaths.NamespacesNeverShareAFile | main.py:48-60 | For any two names, the entities/obligations record and the other-actions record are different files. |
| CachePaths.DigestRecordPath | main.py:52-53 | For a hex digest the record path is `caches/` + digest + suffix; nothing is replaced. |
| CachePaths.DigestsHaveTheirOwnRecords | main.py:82-85 | Two hex digests whose actions share a record file are the same digest, and the two actions are in the same namespace. Record identity is content identity. |
| CachePaths.DigestsHaveTheirOwnIndexDirs | main.py:62-66 | Two hex digests with the same FAISS directory are equal. |
| CachePaths.DottedNamesShareARecord | main.py:52 | Replacing dots is not injective: "a.b" and "a_b" share a record file. |
| CachePaths.ExtractActionKey | main.py:90 | An action "Extract " + s, with no 'x' in s, is stored under lower(s). |
| CachePaths.LicenseTypeKey | main.py:107 | "Extract License Type" is stored under "license type". |
| CachePaths.ExtractKeyLength | main.py:107 | An extraction action's key is as long as its subject. |
| CachePaths.ChatKeyNotSaved | main.py:107 | The key of "Chat with PDF" differs from the key of each of the seven extraction actions. |
| CachePaths.SidebarKeyLength | main.py:107 | The key of each of the eight sidebar actions has the length of its subject ("chat with pdf" for the chat action). |
| CachePaths.ActionKeysDistinct | main.py:90-107 | No two of the eight sidebar actions share a key, so no two share a cache entry. |
| Storage.Merge | main.py:103-110 | Saving adds the action's record path to the files. It leaves every other file as it was, sets the action's key in an existing record, and starts a missing record as the one-entry map. |
| Storage.SaveThenLoad | main.py:87-110 | Loading after saving the same action for the same document returns the saved content. |
| Storage.SaveKeepsOtherEntries | main.py:103-110 | Saving changes what loading returns for no other action, whether it is in another file or under another key of the same record. |
| Storage.TwoSavesBothReadable | main.py:103-110 | Results saved for two actions with different keys are both readable afterwards. |
| Storage.RightsAndRisksBothReadable | main.py:103-110 | Saving "Extract Rights" and then "Extract Risks" for one document keeps both results readable. |
| Storage.ResaveChangesNothing | main.py:103-110 | Saving the same content a second time changes no file. |
| Storage.SaveKeepsNoChatEntry | main.py:103-110 | Saving under any key except the chat key keeps every record free of a chat entry. |
| Storage.Disk.LoadCachedResponse | main.py:77-91 | Returns `Lookup`: the value under the action's key in the action's record, or `None` when the file or the key is missing. |
| Storage.Disk.SaveCachedResponse | main.py:93-110 | The record files become `Merge` of the old ones, and the index directories are unchanged. |
| Storage.Build | main.py:73 | Building succeeds exactly when there is at least one chunk and the embedding call returns, and the index then holds the chunks given. An upload that splits into no chunks raises. |
| Storage.Disk.LoadOrCreateVectorstore | main.py:68-75 | Builds exactly when the digest's directory is missing. Otherwise it returns the saved index and changes nothing. A successful build is saved under the digest; a build that raises (no chunks, or the embedding call raises) saves nothing. |
| Storage.SecondLoadNeverBuilds | main.py:68-75 | After a first load that succeeds, a second load for the same digest does not build and returns the same index, whatever chunks and embedder it is given. |
| Conversation.TranscriptAt | main.py:238 | The buffer holds two messages per turn: the question at 2i and the answer at 2i+1. |
| Conversation.TranscriptPrefix | main.py:234 | The history of the first k turns is the first 2k messages of any later history. |
| Conversation.ChatMemory.SaveContext | main.py:238 | Appends the question and the answer, one turn. |
| Conversation.ChatTurn | main.py:231-239 | The chain is invoked with the history from before the turn. When the call returns, exactly the turn (question, answer) is appended and the memory is reattached. When it raises, the history is untouched and the chain's memory stays detached. |
| Dispatcher.FullTextOnlySeesPrefix | main.py:159 | Chunks after the fifth never reach an extraction prompt. |
| Dispatcher.EntityAnswersShape | main.py:197-205 | Entity extraction gives a result exactly when every model call returns. The result has one entry per element of `prompts_list`, in order, each `**<Entity>**: <answer>`. |
| Dispatcher.ExtractEntities | main.py:197-205 | The loop computes `EntityAnswers`, and a raising call ends it. |
| Dispatcher.EntityResultOnPromptsList | main.py:197-205 | On the app's own `prompts_list`, the entity result exists exactly when all seven calls return. It is then seven entries, "**Agreement Type**: …" through "**Parties Address**: …", in declaration order, each with the answer to its own prompt. |
| Prompts.PromptMapKeys | main.py:251-257 | `prompt_map` is keyed by exactly the five free-text actions. |
| Prompts.CatalogueKeys | main.py:251-257 | The script's own free-text templates are keyed by exactly the five free-text actions, as `SavedKeyIsNotChat` and `NoChatEntryPreserved` require. |
| Dispatcher.ScalarReplyEscapes | main.py:218-225 | With the source's handling, the reply "42" parses to a number, displaying it raises, and nothing is saved. |
| Dispatcher.ObligationsResult | main.py:218-222 | The saved obligations value is always listable. It is the parsed reply when that is a list, object or string, and otherwise the one-element list of the raw reply. It never fails. |
| Dispatcher.CorrectionAgreesWithSource | main.py:218-225 | Wherever the source saves, it saves what `ObligationsResult` gives. The source fails exactly on replies that parse to a scalar. |
| Dispatcher.FallbackIsTruthy | main.py:219-222 | A reply that does not parse is saved as `[raw]`, which is always a cache hit later. |
| Dispatcher.Dispatch | main.py:184-267 | The outcome and the new record files are those of `DispatchSpec` on the old files and the history from before the turn. With `AsWritten`, an obligations reply that parses to a scalar raises and writes nothing; with `Corrected`, it saves the fallback. The index directories are unchanged, and the conversation gains one turn exactly when a question was answered. |
| Dispatcher.CorrectionChangesOnlyScalarReplies | main.py:212-225 | The two obligation handlings give the same request outcome and files, except for an obligations request the source raises on and the correction saves as `[raw]`. |
| Dispatcher.WritesOnlyComputedResults | main.py:184-267 | A request writes only when it computed a result: an entity list, obligations, or the raw reply of one of the five free-text actions. It then writes exactly `Merge` of that result. Hits, chat turns, raised calls, an empty action and unknown actions write nothing. |
| Dispatcher.OnlyItsOwnEntryChanges | main.py:184-267 | After any request, every other action on any document loads what it loaded before. |
| Dispatcher.RepeatIsServedFromCache | main.py:184-188 | After a truthy computed result, the same request is a cache hit that returns that value and writes nothing, whatever the model, parser and chain. |
| Dispatcher.FalsyResultIsNeverServed | main.py:186-187 | A falsy computed result, such as `[]` or an empty reply, is saved but never served: repeating the request misses the cache, whatever the model, parser and chain. |
| Dispatcher.FalsyResultIsRecomputed | main.py:186-187 | With a model that gives the same reply, repeating a request whose result was falsy recomputes the same value, and the files stay as they are. |
| Dispatcher.SavedKeyIsNotChat | main.py:98-108 | Every action that saves stores under a key other than the chat action's. |
| Dispatcher.NoChatEntryPreserved | main.py:227-239 | No request stores an entry under the chat action's key. |
| Dispatcher.ChatNeverServedFromCache | main.py:184-239 | On record files written only by requests, "Chat with PDF" is never answered from the cache. |
| Script.RunUpload | main.py:143-267 | As written: the index is loaded or built before the action is considered, so a failed embedding ends the run. Otherwise the run is `DispatchSpec` with the source's obligation handling, the first five chunks and an empty chat history, because the memory is created anew on every run. |
| Script.RunUploadInSession | main.py:143-267 | As evidently intended: as `RunUpload`, but with the obligation fallback applied to scalar replies, the chain asked with the session's history, and the session gaining the answered turn. |
| Script.FollowUpForgetsAsWritten | main.py:165-239 | As written, a second chat question in the same session is asked with no history. |
| Script.FollowUpRemembersInSession | main.py:165-239 | With a session-wide memory, the second question is asked with the first exchange. |

## Left out

- The Streamlit UI is not modelled: layout, sidebar, workflow toggle, PDF preview, spinners, `st.code`/`st.success`, and the display of sources and answers. The sole exception is the one fact behind the first finding: `show_result_area_accordion` enumerates its argument.
- The Azure and LangChain clients, and FAISS similarity search with k=3, are opaque function parameters. The retrieval inside the chain is not modelled.
- `get_file_hash` (SHA-256) is not modelled. A digest is an opaque string; `HexDigest` states its shape where a lemma needs it.
- Loading and chunking in processing.py are not part of this model. Chunks are an opaque sequence of page texts.
- `json.load`/`json.dump` are not modelled: a record file is a map from key to JSON value. A record file holding something other than a JSON object cannot be represented; only these functions write the files, so they never hold one. Floating-point and NaN details of JSON numbers are not modelled: numbers are reals.
- `lower()` is modelled for ASCII letters only. Unicode case mapping is not modelled.
- The model has no filesystem errors, locking, atomic writes or concurrent uploads, and the code has none of these either. `os.makedirs` only creates folders and is not modelled.
- Writing the upload to `temp.<ext>`, `time.sleep(0.2)` and `export_data` are side effects with no bearing on the caches, and are not modelled. A raising `export_data` would stop the entity branch before its save.
- Script.RunUpload, Script.RunUploadInSession: the prompt texts are a parameter (`templates`), and the script's own texts are `Prompts.Catalogue()`. The run methods are not instantiated with them, to keep the proofs small.
- Storage.Disk.LoadOrCreateVectorstore: the model does not check that a saved index belongs to the chunks it is later used with. It trusts the digest, as the code does.

## Findings

| source | as written | input that shows it | evidently intended | confidence | as-written member | corrected member |
|---|---|---|---|---|---|---|
| main.py:218-225 | The reply to the obligations prompt is passed to `json.loads`. A reply that parses to a JSON scalar reaches `show_result_area_accordion` (ui_utils.py:69-73), whose `enumerate` raises `TypeError` before `save_cached_response` runs. | A model reply of `42` (or `null`, `true`) | Every reply is displayed and saved, with the one-element list of the raw reply as the fallback | not executed | Dispatcher.ScalarReplyEscapes | Dispatcher.ObligationsResult |
| main.py:165 | `ConversationBufferMemory` is created anew on every Streamlit run, and each question is one run, so the chain is always invoked with an empty `chat_history`. | Two chat questions in a row: the second is asked with no history | The buffer lives for the session, so a follow-up question is asked with the earlier turns | not executed | Script.FollowUpForgetsAsWritten | Script.RunUploadInSession |
