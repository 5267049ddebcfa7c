/** The session control flow of app.py: the `st.session_state` triple
    (`rag_engine`, `messages`, `chat_started`) driven by the start, stop and send
    actions, the mapping of the "Null" selection to an absent filter, the
    accumulation of the streamed response text and the source attribution
    table. Rendering is not modelled; the reply of the foreign `chat` call,
    which depends on the engine's memory and on sampling, is an argument of
    the send action. */
module App {

  import opened Optional
  import opened AppTools

  // ---------------------------------------------------------------------------
  // Messages
  // ---------------------------------------------------------------------------

  datatype Role = User | Assistant

  /** One entry of the message history. */
  datatype Message = Message(role: Role, content: string)

  /** The chat types the session can start (the stocks variant is not modelled). */
  datatype ChatType = ChatSimple | ChatGamma

  const SimpleGreeting := ":sparkles: Bonjour, Comment puis-je vous aider ?"
  const GammaGreeting := ":sparkles: Bonjour, Avez-vous des questions sur les MEP ?"

  function Greeting(t: ChatType): string
  {
    match t
    case ChatSimple => SimpleGreeting
    case ChatGamma => GammaGreeting
  }

  /** The sidebar selection as passed to create_rag_chat: "Null" becomes an
      absent filter, any other selection is passed unchanged, and the result
      constrains the search exactly when the selection is a real option. */
  function SelectionToFilter(selection: string): (f: Option<string>)
    ensures f.None? <==> selection == NullSentinel
    ensures f.Some? ==> f.value == selection
    ensures IsActiveFacet(f) <==> selection != NullSentinel && selection != ""
  {
    if selection == NullSentinel then None else Some(selection)
  }

  // ---------------------------------------------------------------------------
  // The streamed response text
  // ---------------------------------------------------------------------------

  /** In-order concatenation of text increments. */
  function Concat(tokens: seq<string>): string
  {
    if tokens == [] then "" else Concat(tokens[..|tokens| - 1]) + tokens[|tokens| - 1]
  }

  lemma {:induction false} ConcatAppend(a: seq<string>, b: seq<string>)
    ensures Concat(a + b) == Concat(a) + Concat(b)
    decreases |b|
  {
    if b == [] {
      assert a + b == a;
    } else {
      assert (a + b)[..|a + b| - 1] == a + b[..|b| - 1];
      ConcatAppend(a, b[..|b| - 1]);
    }
  }

  /** Iterating over a string yields its characters, one per increment. */
  function Characters(s: string): (r: seq<string>)
    ensures |r| == |s|
    ensures forall i :: 0 <= i < |s| ==> r[i] == [s[i]]
  {
    seq(|s|, i requires 0 <= i < |s| => [s[i]])
  }

  /** Concatenating the characters of a string gives the string back: the text
      shown while streaming ends equal to the response text itself. */
  lemma {:induction false} ConcatCharacters(s: string)
    ensures Concat(Characters(s)) == s
    decreases |s|
  {
    if s != [] {
      var n := |s| - 1;
      assert Characters(s)[..n] == Characters(s[..n]);
      ConcatCharacters(s[..n]);
      assert s == s[..n] + [s[n]];
    }
  }

  /** The text shown after the first `k` increments is a prefix of the text
      shown once all of them have arrived. */
  lemma {:induction false} ConcatPrefix(tokens: seq<string>, k: nat)
    requires k <= |tokens|
    ensures Concat(tokens[..k]) <= Concat(tokens)
  {
    assert tokens == tokens[..k] + tokens[k..];
    ConcatAppend(tokens[..k], tokens[k..]);
  }

  /** The loop that builds `response_str`, one increment at a time. */
  method AccumulateResponse(tokens: seq<string>) returns (text: string)
    ensures text == Concat(tokens)
  {
    text := "";
    for i := 0 to |tokens|
      invariant text == Concat(tokens[..i])
    {
      assert tokens[..i + 1][..i] == tokens[..i];
      text := text + tokens[i];
    }
    assert tokens[..|tokens|] == tokens;
  }

  // ---------------------------------------------------------------------------
  // The source attribution table
  // ---------------------------------------------------------------------------

  /** A retrieved node: its metadata (field values modelled as strings) and its
      relevance score, of an opaque type on which nothing is computed. */
  datatype SourceNode<S> = NodeWithScore(metadata: map<string, string>, score: S)

  /** A table cell: a metadata value (or the "N/A" filler) or the score. */
  datatype Cell<S> = Field(text: string) | Relevance(score: S)

  type Row<S> = map<string, Cell<S>>

  const NotAvailable := "N/A"
  const RelevanceKey := "relevance_score"

  /** Union of the metadata keys of all nodes. */
  function UnionKeys<S>(nodes: seq<SourceNode<S>>): set<string>
  {
    if nodes == [] then {} else UnionKeys(nodes[..|nodes| - 1]) + nodes[|nodes| - 1].metadata.Keys
  }

  /** The union contains a key exactly when some node's metadata has it. */
  lemma {:induction false} UnionKeysMembership<S>(nodes: seq<SourceNode<S>>, k: string)
    ensures k in UnionKeys(nodes) <==> exists i :: 0 <= i < |nodes| && k in nodes[i].metadata
    decreases |nodes|
  {
    if nodes != [] {
      var n := |nodes| - 1;
      UnionKeysMembership(nodes[..n], k);
      if k in UnionKeys(nodes[..n]) {
        var i :| 0 <= i < n && k in nodes[..n][i].metadata;
        assert k in nodes[i].metadata;
      }
      if exists i :: 0 <= i < |nodes| && k in nodes[i].metadata {
        var i :| 0 <= i < |nodes| && k in nodes[i].metadata;
        if i < n { assert k in nodes[..n][i].metadata; }
      }
    }
  }

  /** One row: every key of `keys` filled from the node's metadata or with
      "N/A", then the score under `relevance_score`, overriding any metadata
      field of that name. */
  function RowFor<S>(node: SourceNode<S>, keys: set<string>): (r: Row<S>)
    ensures r.Keys == keys + {RelevanceKey}
    ensures r[RelevanceKey] == Relevance(node.score)
    ensures forall k :: k in keys && k != RelevanceKey && k in node.metadata ==> r[k] == Field(node.metadata[k])
    ensures forall k :: k in keys && k != RelevanceKey && k !in node.metadata ==> r[k] == Field(NotAvailable)
  {
    (map k | k in keys :: Field(if k in node.metadata then node.metadata[k] else NotAvailable))[RelevanceKey := Relevance(node.score)]
  }

  function RowsFor<S>(nodes: seq<SourceNode<S>>, keys: set<string>): (rows: seq<Row<S>>)
  {
    seq(|nodes|, i requires 0 <= i < |nodes| => RowFor(nodes[i], keys))
  }

  /** The attribution table: one row per node in node order, every row over
      the same key set (the union of all metadata keys plus the score column),
      each node's own fields kept, the others filled with "N/A". */
  function SourceTable<S>(nodes: seq<SourceNode<S>>): (rows: seq<Row<S>>)
    ensures |rows| == |nodes|
    ensures forall i, j :: 0 <= i < |rows| && 0 <= j < |rows| ==> rows[i].Keys == rows[j].Keys
    ensures forall i, k :: 0 <= i < |nodes| && k in nodes[i].metadata ==> k in UnionKeys(nodes)
    ensures forall i :: 0 <= i < |rows| ==> rows[i].Keys == UnionKeys(nodes) + {RelevanceKey}
    ensures forall i :: 0 <= i < |rows| ==> rows[i][RelevanceKey] == Relevance(nodes[i].score)
    ensures forall i, k :: 0 <= i < |rows| && k in nodes[i].metadata && k != RelevanceKey
              ==> rows[i][k] == Field(nodes[i].metadata[k])
    ensures forall i, k :: 0 <= i < |rows| && k in UnionKeys(nodes) && k !in nodes[i].metadata && k != RelevanceKey
              ==> rows[i][k] == Field(NotAvailable)
  {
    var keys := UnionKeys(nodes);
    assert forall i, k :: 0 <= i < |nodes| && k in nodes[i].metadata ==> k in keys by {
      forall i, k | 0 <= i < |nodes| && k in nodes[i].metadata ensures k in keys {
        UnionKeysMembership(nodes, k);
      }
    }
    RowsFor(nodes, keys)
  }

  /** The loop that fills `all_metadata_keys`. */
  method CollectMetadataKeys<S>(nodes: seq<SourceNode<S>>) returns (keys: set<string>)
    ensures keys == UnionKeys(nodes)
  {
    keys := {};
    for i := 0 to |nodes|
      invariant keys == UnionKeys(nodes[..i])
    {
      assert nodes[..i + 1][..i] == nodes[..i];
      keys := keys + nodes[i].metadata.Keys;
    }
    assert nodes[..|nodes|] == nodes;
  }

  /** The loop that fills `sources_data`, one row appended per node. */
  method BuildSourcesData<S>(nodes: seq<SourceNode<S>>) returns (rows: seq<Row<S>>)
    ensures rows == SourceTable(nodes)
  {
    var keys := CollectMetadataKeys(nodes);
    rows := [];
    for i := 0 to |nodes|
      invariant rows == RowsFor(nodes[..i], keys)
    {
      rows := rows + [RowFor(nodes[i], keys)];
    }
    assert nodes[..|nodes|] == nodes;
  }

  // ---------------------------------------------------------------------------
  // The session state
  // ---------------------------------------------------------------------------

  /** The foreign engine's reply: the full response text and, when the reply
      carries them, the retrieved source nodes. */
  datatype ChatResponse<S> = ChatResponse(response: string, sourceNodes: Option<seq<SourceNode<S>>>)

  class SessionState {
    var ragEngine: RagEngine?
    var messages: seq<Message>
    var chatStarted: bool

    /** The objects the session's invariant depends on. */
    ghost function Footprint(): set<object>
      reads this, ragEngine
    {
      if ragEngine == null then {}
      else {ragEngine} + (if ragEngine.mongoClient == null then {} else {ragEngine.mongoClient})
    }

    /** A session is started exactly when it holds an engine, and a held engine
        is consistent and has a chat engine to send to. */
    ghost predicate Valid()
      reads this, Footprint()
    {
      && (chatStarted <==> ragEngine != null)
      && (ragEngine != null ==> ragEngine.Valid() && ragEngine.chatEngine.Some?)
    }

    /** The session state as first initialised. */
    constructor ()
      ensures Valid()
      ensures ragEngine == null && messages == [] && !chatStarted
    {
      ragEngine := null;
      messages := [];
      chatStarted := false;
    }

    /** The start button, offered only while no chat is started: a fresh engine
        configured for the chosen chat type, the history reset to the single
        greeting, and the session marked started. */
    method Start(chatType: ChatType, appSelection: string, statusSelection: string) returns (started: bool)
      requires Valid()
      modifies this
      ensures Valid()
      ensures started == !old(chatStarted)
      ensures !started ==> ragEngine == old(ragEngine) && messages == old(messages) && chatStarted == old(chatStarted)
      ensures started ==> chatStarted && ragEngine != null && fresh(Footprint())
      ensures started ==> messages == [Message(Assistant, Greeting(chatType))]
      ensures started && chatType == ChatSimple ==>
                ragEngine.mongoClient == null && ragEngine.memory == Some(ChatMemoryBuffer(SimpleTokenLimit))
                && ragEngine.chatEngine == Some(SimpleChatEngine(SimpleSystemPrompt, ChatMemoryBuffer(SimpleTokenLimit), true))
      ensures started && chatType == ChatGamma ==>
                ragEngine.mongoClient != null && !ragEngine.mongoClient.closed
                && ragEngine.vectorStore == Some(MongoDBAtlasVectorSearch(ragEngine.mongoClient, DbName, CollectionName, VectorIndexName))
                && ragEngine.memory == Some(ChatMemoryBuffer(RagTokenLimit))
                && ragEngine.chatEngine == Some(IndexChatEngine(ragEngine.vectorStore.value,
                     ChatEngineParams(ChatMemoryBuffer(RagTokenLimit), SelectionToFilter(appSelection), SelectionToFilter(statusSelection))))
    {
      started := !chatStarted;
      if started {
        var engine := new RagEngine();
        var greeting;
        match chatType {
          case ChatSimple =>
            var _ := engine.CreateSimpleChat();
            greeting := SimpleGreeting;
          case ChatGamma =>
            var appFilterValue := SelectionToFilter(appSelection);
            var statusFilterValue := SelectionToFilter(statusSelection);
            var _ := engine.CreateRagChat(appFilterValue, statusFilterValue);
            greeting := GammaGreeting;
        }
        ragEngine := engine;
        messages := [Message(Assistant, greeting)];
        chatStarted := true;
      }
    }

    /** The stop button, offered only while a chat is started: the engine is
        reset (closing its client if it holds one) and dropped, the history
        cleared and the session marked stopped. */
    method Stop() returns (stopped: bool)
      requires Valid()
      modifies this, Footprint()
      ensures Valid()
      ensures stopped == old(chatStarted)
      ensures !stopped ==> ragEngine == old(ragEngine) && messages == old(messages) && chatStarted == old(chatStarted)
      ensures stopped ==> ragEngine == null && messages == [] && !chatStarted
      ensures stopped ==> old(ragEngine).chatEngine.None? && old(ragEngine).memory.None?
                          && old(ragEngine).mongoClient == null && old(ragEngine).vectorStore.None?
      ensures stopped && old(ragEngine.mongoClient) != null ==> old(ragEngine.mongoClient).closed
    {
      stopped := chatStarted;
      if stopped {
        if ragEngine != null {
          ragEngine.Reset();
        }
        ragEngine := null;
        messages := [];
        chatStarted := false;
      }
    }

    /** The chat input, enabled only while an engine is held and acting only on
        a non-empty prompt: the user message is appended, the engine's reply
        (given, since the foreign call produces it) is streamed into the displayed text, the source table is built when the
        reply carries nodes, and the reply is appended as the assistant message.
        The history grows by exactly these two entries. */
    method Send<S>(prompt: string, reply: ChatResponse<S>)
      returns (sent: bool, displayed: string, sources: Option<seq<Row<S>>>)
      requires Valid()
      modifies this
      ensures Valid()
      ensures sent == (prompt != "" && ragEngine != null)
      ensures ragEngine == old(ragEngine) && chatStarted == old(chatStarted)
      ensures !sent ==> messages == old(messages) && displayed == "" && sources.None?
      ensures sent ==>
                && messages == old(messages) + [Message(User, prompt), Message(Assistant, reply.response)]
                && |messages| == |old(messages)| + 2
                && displayed == reply.response
                && sources == (if reply.sourceNodes.Some? then Some(SourceTable(reply.sourceNodes.value)) else None)
    {
      sent := prompt != "" && ragEngine != null;
      displayed := "";
      sources := None;
      if sent {
        messages := messages + [Message(User, prompt)];
        displayed := AccumulateResponse(Characters(reply.response));
        ConcatCharacters(reply.response);
        if reply.sourceNodes.Some? {
          var rows := BuildSourcesData(reply.sourceNodes.value);
          sources := Some(rows);
        }
        messages := messages + [Message(Assistant, reply.response)];
      }
    }
  }

  /** A retrieval session with one facet set: the application constraint alone
      reaches the engine, a send grows the history by two entries ending in the
      reply, and stopping closes the connection and clears everything. */
  method GammaSessionScenario(reply: ChatResponse<int>)
  {
    var session := new SessionState();
    var started := session.Start(ChatGamma, "App_Alpha", NullSentinel);
    assert started && |session.messages| == 1;
    var engine := session.ragEngine;
    var client := engine.mongoClient;
    assert engine.chatEngine.value.params[FiltersKey]
        == FiltersParam(MetadataFilters([MetadataFilter(AppKey, EQ, "App_Alpha")], AND));
    assert FacetFilters(SelectionToFilter("App_Alpha"), SelectionToFilter(NullSentinel))
        == [MetadataFilter(AppKey, EQ, "App_Alpha")];

    var sent, displayed, _ := session.Send("hello", reply);
    assert sent && |session.messages| == 3;
    assert session.messages[2] == Message(Assistant, displayed);

    var again := session.Start(ChatSimple, NullSentinel, NullSentinel);
    assert !again && session.ragEngine == engine;

    var stopped := session.Stop();
    assert stopped && client.closed && session.messages == [] && !session.chatStarted;
    var noInput, _, _ := session.Send("hello", reply);
    assert !noInput;
  }
}
