# mongodb_rag session engine, in Dafny

A model of the chat session core of the `mongodb_rag` application: a Streamlit
page over LlamaIndex that either chats directly with a language model
("Chat Simple") or retrieves operation records ("MEP") from a MongoDB Atlas
vector collection before answering ("Chat avec Gamma"). Three pieces of logic
are the repository's own and are modelled here:

- **The engine object** (`AppTools.RagEngine`, app_tools.py). It holds four
  optional resources: a Mongo client, a vector store, a chat engine and a
  memory. `CreateSimpleChat` and `CreateRagChat` fill them with the
  mode's constants: the token limits 4096 and 6096, top-k 11, chat mode
  `condense_plus_context` and query mode `default`. `Reset` drops all four
  and closes the client only when one is held. The client is a class with a
  `closed` flag. The vector store and the chat engines are datatype values
  that record how they were configured. The keyword dictionary passed to
  `as_chat_engine` is a `map<string, Param>`. An object invariant (`Valid`)
  says that a store is held exactly when an open client is, and that the chat
  engine is wired to the memory and the store the engine holds.
- **The metadata filter builder** (app_tools.py:79-104, and the "Null" mapping
  of app.py:53-54). A facet that is set, non-empty (Python truthiness) and not
  `"Null"` yields one `EQ` constraint on its fixed field. The application
  facet comes first, then the status facet. The `filters` entry, joined with
  `AND`, is added only when the list is non-empty. `Satisfies` and `Admits`
  give the usual meaning of such filters. `ParamsAdmitExactlyFacetMatches`
  proves that the built parameters admit exactly the documents that agree
  with every active facet.
- **The session page** (`App.SessionState`, app.py). It holds
  `rag_engine`, `messages` and `chat_started`. Start and stop form a
  two-state machine. Each send appends one user entry and one assistant
  entry. The streamed text is the in-order concatenation of the response's
  characters, and it equals the stored assistant entry. The source table has
  one row per node, over the union of all metadata keys plus
  `relevance_score`, with `"N/A"` for absent keys.

The chat engine's reply (`chat_engine.chat(prompt)`) is foreign: it depends
on the engine's memory and on sampling. `Send` takes the reply as an argument. Relevance scores have a type parameter `S`,
and nothing is computed on them. Metadata values are modelled as strings.

Files: `option.dfy` (module `Optional`), `app_tools.dfy` (module `AppTools`,
for app_tools.py) and `app.dfy` (module `App`, for app.py).

Facts about the source that bound the model:

- The source has no memory eviction of its own and no hybrid search. It
  does not turn a failed retrieval into an "I don't know" turn.
- A send stores `response.response` as the assistant entry. The library
  memory's own update is not modelled.
- `create_rag_chat` opens a new client even when one is already held, and
  never closes the old one; `InitializeMongoDb` states this. It cannot
  happen through app.py, since each start builds a fresh `RagEngine`.
- The filter condition is always `AND`; no other condition is built.

`App.GammaSessionScenario` is a client method of the session contracts. It
starts a retrieval session with one facet set, sends once, tries a second
start and stops. Its assertions follow from the contracts alone.

## Model

| member | source | states |
|---|---|---|
| `AppTools.RagEngine.constructor` | app_tools.py:13-17 | a new engine holds no client, store, chat engine or memory, and satisfies the engine invariant |
| `AppTools.RagEngine.InitializeMongoDb` | app_tools.py:32-40 | a fresh open client is held, with a store bound to it and to database `IT_Operations`, collection `vectorstore_li` and index `vector_index_li`; chat engine and memory are unchanged |
| `AppTools.RagEngine.CreateSimpleChat` | app_tools.py:42-53 | memory has token limit 4096; the returned and held engine is a streaming simple engine over that memory; client and store are left as they were (no connection is opened) |
| `AppTools.RagEngine.CreateRagChat` | app_tools.py:55-107 | whatever the filters, a fresh open client and the fixed store are held, memory has token limit 6096, and the engine is the index engine over that store with the parameter dictionary built from the two facets |
| `AppTools.RagEngine.Reset` | app_tools.py:109-116 | from any engine state, afterwards all four resources are absent; the previously held client, if any, is closed, and with none held nothing but the engine's own fields may change |
| `AppTools.ResetTwice` | app_tools.py:109-116 | a second reset keeps the state the first produced and closes nothing more; the first one's client stays closed |
| `AppTools.MongoClient.constructor` | app_tools.py:34 | a new client is open |
| `AppTools.MongoClient.Close` | app_tools.py:114 | the client is closed afterwards |
| `AppTools.FacetFilters` | app_tools.py:79-98 | the list is empty iff neither facet is active; its length is the number of active facets; every constraint is `EQ`; an active application facet gives the first constraint on `operation_application` with its value, an active status facet the last one on `operation_status` |
| `AppTools.FacetFiltersKeyCount` | app_tools.py:82-98 | exactly one constraint is on `operation_application` when the application facet is active and none otherwise, and likewise for `operation_status`, whatever the other facet is |
| `AppTools.KeyCountAppend` | app_tools.py:80-98 | counting constraints on a key distributes over appending to the list |
| `AppTools.ChatEngineParams` | app_tools.py:64-104 | the dictionary always has chat mode `condense_plus_context`, top-k 11, query mode `default`, the given memory, verbose, the context prompt; it has a `filters` key iff some facet is active, and then it holds the facet constraints joined with `AND`; no other keys |
| `AppTools.ParamsAdmitExactlyFacetMatches` | app_tools.py:79-104 | a search under the built parameters admits a document iff it matches every active facet's field and value, so with no active facet it admits every document |
| `AppTools.BuildChatEngineParams` | app_tools.py:64-104 | the in-place construction yields the filter list and dictionary above, and the `filters` key is inserted iff the list is non-empty |
| `App.SelectionToFilter` | app.py:53-54 | the result is absent iff the selection is `"Null"`, otherwise it is the selection unchanged; it constrains the search iff the selection is a real, non-empty option |
| `App.ConcatAppend` | app.py:99-103 | concatenating increments distributes over splitting the increment sequence |
| `App.Characters` | app.py:101 | iterating a string yields one increment per character, in order |
| `App.ConcatCharacters` | app.py:99-103 | concatenating a string's characters gives back the string, so the displayed text equals the response text |
| `App.ConcatPrefix` | app.py:99-103 | the text shown after any number of increments is a prefix of the final text |
| `App.AccumulateResponse` | app.py:99-103 | the accumulated text is the in-order concatenation of all increments |
| `App.UnionKeysMembership` | app.py:109-111 | a key is in the union iff some node's metadata has it |
| `App.CollectMetadataKeys` | app.py:109-111 | the loop computes the union of all nodes' metadata keys |
| `App.RowFor` | app.py:116-120 | a row's keys are the given keys plus `relevance_score`; the score column holds the node's score even over a metadata field of that name; keys the node has keep their values, the others are `"N/A"` |
| `App.SourceTable` | app.py:106-123 | one row per node, in node order; all rows have the same key set, the union of metadata keys plus `relevance_score`; each row holds its own node's score and fields, with `"N/A"` for the keys it lacks |
| `App.BuildSourcesData` | app.py:114-121 | the loop builds exactly the attribution table above |
| `App.SessionState.constructor` | app.py:14-20 | a new session has no engine, no messages and is not started |
| `App.SessionState.Start` | app.py:39-65 | only while not started: a fresh engine, configured for the chat type (for Gamma: an open client, the store bound to it with the fixed database, collection and index, and the filters mapped from the selections), the history set to exactly the greeting, and the session marked started; otherwise nothing changes |
| `App.SessionState.Stop` | app.py:66-73 | only while started: the held engine is reset (its client closed if held), then dropped, the history emptied and the session marked stopped; otherwise nothing changes |
| `App.SessionState.Send` | app.py:84-128 | acts only on a non-empty prompt while an engine is held: the history gains exactly the user prompt and then the engine's reply; the displayed text equals the reply; a source table is built iff the reply carries source nodes |

## Left out

- Streamlit rendering, widgets, page configuration and `st.secrets`: user interface and configuration plumbing.
- The process-wide `Settings.llm` / `Settings.embed_model` set-up and the Groq and Cohere clients (app_tools.py:20-30): foreign providers that are configured once and not modelled.
- `MongoDBAtlasVectorSearch`, `VectorStoreIndex` and `as_chat_engine`: foreign calls. The store is a datatype handle recording its configuration; the index and the engine `as_chat_engine` returns are folded into one handle, `IndexChatEngine`.
- `StorageContext` (app_tools.py:59) is not modelled at all: the context it builds is never used.
- The eviction behaviour of `ChatMemoryBuffer` is library code. Only its token limits are modelled.
- Generation and streaming themselves. `Send` receives the reply as an argument.
- Failures of the foreign calls, such as a missing secret or an unreachable database, and the exceptions they raise.
- The "Ask Stocks" chat type (app.py:47-49). It calls `create_stx_rag_chat`, which app_tools.py does not define.
- The wording of the system prompt and of the context prompt. They are the constants `SimpleSystemPrompt` and `MepContextPrompt`.
- Metadata values of types other than strings. Relevance scores are kept opaque.
- mongo_dashboard.py, a standalone database browser, and prompts.py, a constant prompt string, are not part of this model.
