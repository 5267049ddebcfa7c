/** The retrieval session engine of app_tools.py: the `RagEngine` object with its
    four optional resources, the chat-engine parameter dictionary and the
    metadata filter builder. The language model, the embedding model, the vector
    index and the chat engines themselves are foreign; they appear here only as
    opaque handles (datatype values) carrying the configuration they were given. */
module AppTools {

  import opened Optional

  // ---------------------------------------------------------------------------
  // Constants of the source
  // ---------------------------------------------------------------------------

  /** Token budget of the conversation memory in simple mode. */
  const SimpleTokenLimit: nat := 4096
  /** Token budget of the conversation memory in retrieval mode. */
  const RagTokenLimit: nat := 6096
  /** Number of candidates fetched by each similarity search. */
  const SimilarityTopK: nat := 11

  const CondensePlusContext := "condense_plus_context"
  const DefaultQueryMode := "default"

  const DbName := "IT_Operations"
  const CollectionName := "vectorstore_li"
  const VectorIndexName := "vector_index_li"

  /** The selection that stands for "no filter on this facet". */
  const NullSentinel := "Null"

  /** Metadata fields the two recognised facets constrain. */
  const AppKey := "operation_application"
  const StatusKey := "operation_status"

  /** Keys of the chat engine parameter dictionary. */
  const ChatModeKey := "chat_mode"
  const TopKKey := "similarity_top_k"
  const QueryModeKey := "vector_store_query_mode"
  const MemoryKey := "memory"
  const VerboseKey := "verbose"
  const ContextPromptKey := "context_prompt"
  const FiltersKey := "filters"

  // ---------------------------------------------------------------------------
  // Data model
  // ---------------------------------------------------------------------------

  /** A `ChatMemoryBuffer`; only its token limit is the repository's own. */
  datatype Memory = ChatMemoryBuffer(tokenLimit: nat)

  /** The two fixed instruction texts (their wording is not modelled). */
  datatype Prompt = SimpleSystemPrompt | MepContextPrompt

  datatype FilterOperator = EQ
  datatype FilterCondition = AND

  /** One equality constraint on a metadata field. */
  datatype MetadataFilter = MetadataFilter(key: string, operator: FilterOperator, value: string)

  /** A list of constraints combined by one condition. */
  datatype MetadataFilters = MetadataFilters(filters: seq<MetadataFilter>, condition: FilterCondition)

  /** A value of the keyword-argument dictionary handed to `as_chat_engine`. */
  datatype Param =
    | Text(text: string)
    | Int(number: int)
    | Flag(flag: bool)
    | MemoryParam(memory: Memory)
    | PromptParam(prompt: Prompt)
    | FiltersParam(filters: MetadataFilters)

  /** The database connection: an opaque object that can be closed. */
  class MongoClient {
    var closed: bool

    constructor ()
      ensures !closed
    {
      closed := false;
    }

    method Close()
      modifies this
      ensures closed
    {
      closed := true;
    }
  }

  /** A `MongoDBAtlasVectorSearch` store bound to a client and a collection. */
  datatype VectorStore =
    MongoDBAtlasVectorSearch(client: MongoClient, dbName: string, collectionName: string, vectorIndexName: string)

  /** The two kinds of chat engine the source builds. */
  datatype ChatEngine =
    | SimpleChatEngine(systemPrompt: Prompt, memory: Memory, streaming: bool)
    | IndexChatEngine(store: VectorStore, params: map<string, Param>)

  /** The memory a chat engine was wired to, if its configuration names one. */
  function EngineMemory(e: ChatEngine): Option<Memory>
  {
    match e
    case SimpleChatEngine(_, m, _) => Some(m)
    case IndexChatEngine(_, p) =>
      if MemoryKey in p && p[MemoryKey].MemoryParam? then Some(p[MemoryKey].memory) else None
  }

  // ---------------------------------------------------------------------------
  // Filter builder (create_rag_chat, the active_filters list)
  // ---------------------------------------------------------------------------

  /** A facet produces a constraint when it is set (Python-truthy: present and
      not the empty string) and is not the "Null" sentinel. */
  predicate IsActiveFacet(f: Option<string>)
  {
    f.Some? && f.value != "" && f.value != NullSentinel
  }

  function FacetConstraint(key: string, f: Option<string>): seq<MetadataFilter>
  {
    if IsActiveFacet(f) then [MetadataFilter(key, EQ, f.value)] else []
  }

  /** The constraints built from the two facets, application first. */
  function FacetFilters(appFilter: Option<string>, statusFilter: Option<string>): (r: seq<MetadataFilter>)
    ensures r == [] <==> !IsActiveFacet(appFilter) && !IsActiveFacet(statusFilter)
    ensures |r| == (if IsActiveFacet(appFilter) then 1 else 0) + (if IsActiveFacet(statusFilter) then 1 else 0)
    ensures forall i :: 0 <= i < |r| ==> r[i].operator == EQ
    ensures IsActiveFacet(appFilter) ==> r[0] == MetadataFilter(AppKey, EQ, appFilter.value)
    ensures IsActiveFacet(statusFilter) ==> r[|r| - 1] == MetadataFilter(StatusKey, EQ, statusFilter.value)
  {
    FacetConstraint(AppKey, appFilter) + FacetConstraint(StatusKey, statusFilter)
  }

  /** Number of constraints on `key`. */
  function KeyCount(fs: seq<MetadataFilter>, key: string): nat
  {
    if fs == [] then 0 else KeyCount(fs[..|fs| - 1], key) + (if fs[|fs| - 1].key == key then 1 else 0)
  }

  lemma {:induction false} KeyCountAppend(a: seq<MetadataFilter>, b: seq<MetadataFilter>, key: string)
    ensures KeyCount(a + b, key) == KeyCount(a, key) + KeyCount(b, key)
    decreases |b|
  {
    if b == [] {
      assert a + b == a;
    } else {
      assert (a + b)[..|a + b| - 1] == a + b[..|b| - 1];
      KeyCountAppend(a, b[..|b| - 1], key);
    }
  }

  /** Each facet contributes exactly one constraint on its own field when it is
      active and none otherwise, whatever the other facet is. */
  lemma FacetFiltersKeyCount(appFilter: Option<string>, statusFilter: Option<string>)
    ensures KeyCount(FacetFilters(appFilter, statusFilter), AppKey) == if IsActiveFacet(appFilter) then 1 else 0
    ensures KeyCount(FacetFilters(appFilter, statusFilter), StatusKey) == if IsActiveFacet(statusFilter) then 1 else 0
  {
    var a, s := FacetConstraint(AppKey, appFilter), FacetConstraint(StatusKey, statusFilter);
    KeyCountAppend(a, s, AppKey);
    KeyCountAppend(a, s, StatusKey);
    if a != [] { assert a[..0] == []; }
    if s != [] { assert s[..0] == []; }
  }

  /** Whether a document's metadata satisfies one constraint. */
  predicate Holds(doc: map<string, string>, f: MetadataFilter)
  {
    match f.operator
    case EQ => f.key in doc && doc[f.key] == f.value
  }

  /** Whether a document's metadata satisfies a combined filter. */
  predicate Satisfies(doc: map<string, string>, mf: MetadataFilters)
  {
    match mf.condition
    case AND => forall i :: 0 <= i < |mf.filters| ==> Holds(doc, mf.filters[i])
  }

  /** The documents a facet selection is meant to admit, stated per facet. */
  predicate AgreesWithFacets(doc: map<string, string>, appFilter: Option<string>, statusFilter: Option<string>)
  {
    && (IsActiveFacet(appFilter) ==> AppKey in doc && doc[AppKey] == appFilter.value)
    && (IsActiveFacet(statusFilter) ==> StatusKey in doc && doc[StatusKey] == statusFilter.value)
  }

  // ---------------------------------------------------------------------------
  // Chat engine parameters (create_rag_chat, the chat_engine_params dictionary)
  // ---------------------------------------------------------------------------

  /** The dictionary as first written, before any filter is attached. */
  function BaseParams(memory: Memory): map<string, Param>
  {
    map[ChatModeKey := Text(CondensePlusContext),
        TopKKey := Int(SimilarityTopK),
        QueryModeKey := Text(DefaultQueryMode),
        MemoryKey := MemoryParam(memory),
        VerboseKey := Flag(true),
        ContextPromptKey := PromptParam(MepContextPrompt)]
  }

  /** The complete dictionary: the filters entry is present only when at least
      one facet is active, and then holds the constraints joined with AND. */
  function ChatEngineParams(memory: Memory, appFilter: Option<string>, statusFilter: Option<string>): (p: map<string, Param>)
    ensures p.Keys == {ChatModeKey, TopKKey, QueryModeKey, MemoryKey, VerboseKey, ContextPromptKey}
                    + (if FiltersKey in p then {FiltersKey} else {})
    ensures p[ChatModeKey] == Text(CondensePlusContext)
    ensures p[TopKKey] == Int(SimilarityTopK)
    ensures p[QueryModeKey] == Text(DefaultQueryMode)
    ensures p[MemoryKey] == MemoryParam(memory)
    ensures p[VerboseKey] == Flag(true)
    ensures p[ContextPromptKey] == PromptParam(MepContextPrompt)
    ensures FiltersKey in p <==> IsActiveFacet(appFilter) || IsActiveFacet(statusFilter)
    ensures FiltersKey in p ==> p[FiltersKey] == FiltersParam(MetadataFilters(FacetFilters(appFilter, statusFilter), AND))
  {
    var active := FacetFilters(appFilter, statusFilter);
    if active == [] then BaseParams(memory)
    else BaseParams(memory)[FiltersKey := FiltersParam(MetadataFilters(active, AND))]
  }

  /** What a search configured with these parameters admits: everything when no
      filters entry is present, otherwise the documents the filters accept. */
  predicate Admits(params: map<string, Param>, doc: map<string, string>)
  {
    FiltersKey !in params || (params[FiltersKey].FiltersParam? && Satisfies(doc, params[FiltersKey].filters))
  }

  /** The filter builder is correct: a search under the built parameters admits
      exactly the documents that agree with every active facet; in particular,
      with no active facet it admits every document. */
  lemma ParamsAdmitExactlyFacetMatches(memory: Memory, appFilter: Option<string>, statusFilter: Option<string>,
                                       doc: map<string, string>)
    ensures Admits(ChatEngineParams(memory, appFilter, statusFilter), doc)
        <==> AgreesWithFacets(doc, appFilter, statusFilter)
  {
  }

  /** Builds the parameter dictionary step by step, as create_rag_chat does:
      the literal dictionary, then the active_filters list grown one facet at a
      time, then the filters entry inserted when that list is non-empty. */
  method BuildChatEngineParams(memory: Memory, appFilter: Option<string>, statusFilter: Option<string>)
    returns (params: map<string, Param>, activeFilters: seq<MetadataFilter>)
    ensures activeFilters == FacetFilters(appFilter, statusFilter)
    ensures params == ChatEngineParams(memory, appFilter, statusFilter)
    ensures FiltersKey in params <==> activeFilters != []
  {
    params := BaseParams(memory);
    activeFilters := [];
    if appFilter.Some? && appFilter.value != "" && appFilter.value != NullSentinel {
      activeFilters := activeFilters + [MetadataFilter(AppKey, EQ, appFilter.value)];
    }
    if statusFilter.Some? && statusFilter.value != "" && statusFilter.value != NullSentinel {
      activeFilters := activeFilters + [MetadataFilter(StatusKey, EQ, statusFilter.value)];
    }
    if activeFilters != [] {
      params := params[FiltersKey := FiltersParam(MetadataFilters(activeFilters, AND))];
    }
  }

  // ---------------------------------------------------------------------------
  // The engine object
  // ---------------------------------------------------------------------------

  class RagEngine {
    var mongoClient: MongoClient?
    var vectorStore: Option<VectorStore>
    var chatEngine: Option<ChatEngine>
    var memory: Option<Memory>

    /** The engine's invariant: a vector store is held exactly when a client is,
        and it is bound to that client; a held client is open; a chat engine is
        wired to the memory the engine holds, and a retrieval engine to the
        store it holds. */
    ghost predicate Valid()
      reads this, mongoClient
    {
      && (mongoClient == null <==> vectorStore.None?)
      && (vectorStore.Some? ==> vectorStore.value.client == mongoClient)
      && (mongoClient != null ==> !mongoClient.closed)
      && (chatEngine.Some? ==> memory.Some? && EngineMemory(chatEngine.value) == memory)
      && (chatEngine.Some? && chatEngine.value.IndexChatEngine? ==> vectorStore == Some(chatEngine.value.store))
    }

    /** A new engine holds no resource. The process-wide model settings the
        source installs here are not modelled. */
    constructor ()
      ensures Valid()
      ensures mongoClient == null && vectorStore.None? && chatEngine.None? && memory.None?
    {
      mongoClient := null;
      vectorStore := None;
      chatEngine := None;
      memory := None;
    }

    /** Opens a fresh client and binds the fixed collection and index to it.
        A client held before is replaced without being closed. */
    method InitializeMongoDb()
      modifies this
      ensures mongoClient != null && fresh(mongoClient) && !mongoClient.closed
      ensures vectorStore == Some(MongoDBAtlasVectorSearch(mongoClient, DbName, CollectionName, VectorIndexName))
      ensures chatEngine == old(chatEngine) && memory == old(memory)
    {
      mongoClient := new MongoClient();
      vectorStore := Some(MongoDBAtlasVectorSearch(mongoClient, DbName, CollectionName, VectorIndexName));
    }

    /** Direct mode: a 4096-token memory and a streaming engine over it; no
        connection is opened and the store binding is left as it was. */
    method CreateSimpleChat() returns (engine: ChatEngine)
      requires Valid()
      modifies this
      ensures Valid()
      ensures memory == Some(ChatMemoryBuffer(SimpleTokenLimit))
      ensures engine == SimpleChatEngine(SimpleSystemPrompt, ChatMemoryBuffer(SimpleTokenLimit), true)
      ensures chatEngine == Some(engine)
      ensures mongoClient == old(mongoClient) && vectorStore == old(vectorStore)
    {
      memory := Some(ChatMemoryBuffer(SimpleTokenLimit));
      chatEngine := Some(SimpleChatEngine(SimpleSystemPrompt, memory.value, true));
      engine := chatEngine.value;
    }

    /** Retrieval mode: always opens the store, then wires a 6096-token memory
        and the parameter dictionary built from the two facets. */
    method CreateRagChat(appFilter: Option<string>, statusFilter: Option<string>) returns (engine: ChatEngine)
      requires Valid()
      modifies this
      ensures Valid()
      ensures mongoClient != null && fresh(mongoClient) && !mongoClient.closed
      ensures vectorStore == Some(MongoDBAtlasVectorSearch(mongoClient, DbName, CollectionName, VectorIndexName))
      ensures memory == Some(ChatMemoryBuffer(RagTokenLimit))
      ensures engine == IndexChatEngine(vectorStore.value, ChatEngineParams(ChatMemoryBuffer(RagTokenLimit), appFilter, statusFilter))
      ensures chatEngine == Some(engine)
    {
      InitializeMongoDb();
      memory := Some(ChatMemoryBuffer(RagTokenLimit));
      var params, _ := BuildChatEngineParams(memory.value, appFilter, statusFilter);
      chatEngine := Some(IndexChatEngine(vectorStore.value, params));
      engine := chatEngine.value;
    }

    /** Drops all four resources. The client is closed exactly when one is held:
        with none held, nothing but this object's fields is touched, so a
        second reset closes nothing. It accepts an engine in any state. */
    method Reset()
      modifies this, mongoClient
      ensures Valid()
      ensures chatEngine.None? && memory.None? && mongoClient == null && vectorStore.None?
      ensures old(mongoClient) != null ==> old(mongoClient).closed
    {
      chatEngine := None;
      memory := None;
      if mongoClient != null {
        mongoClient.Close();
        mongoClient := null;
      }
      vectorStore := None;
    }
  }

  /** Two resets in a row: the second finds nothing to close and leaves the
      state the first produced; the client the first one closed stays closed. */
  method ResetTwice(e: RagEngine)
    modifies e, e.mongoClient
    ensures e.Valid()
    ensures e.chatEngine.None? && e.memory.None? && e.mongoClient == null && e.vectorStore.None?
    ensures old(e.mongoClient) != null ==> old(e.mongoClient).closed
  {
    e.Reset();
    e.Reset();
  }
}
