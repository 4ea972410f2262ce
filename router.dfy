/** The `/generate` endpoint: classify the prompt, hand it to the
    task-management agent, the document agent, or the plain chat model, and
    wrap the reply. */
module Router {
  import opened Text
  import opened Agents
  import opened AsanaIntent
  import opened KnowledgeBaseIntent

  datatype Route = AsanaRoute | KnowledgeBaseRoute | GeneralRoute

  /** The branch `generate` takes: task-management keywords are checked
      first, so they win over document keywords. */
  function RouteOf(query: string): (r: Route)
    ensures r == AsanaRoute <==> IsAsanaRelatedQuery(query)
    ensures r == KnowledgeBaseRoute <==> !IsAsanaRelatedQuery(query) && IsKnowledgeBaseQuery(query)
    ensures r == GeneralRoute <==> !IsAsanaRelatedQuery(query) && !IsKnowledgeBaseQuery(query)
  {
    if IsAsanaRelatedQuery(query) then AsanaRoute
    else if IsKnowledgeBaseQuery(query) then KnowledgeBaseRoute
    else GeneralRoute
  }

  /** The state of one integration as a handler finds it:
      - `Unconfigured`: its client global is `None`, either because the
        token or the knowledge-base id was not set at startup, or because
        initialising the client raised and `lifespan` reset it;
      - `SetupFailed`: preparing the agent raised, whether fetching the
        tools or the retriever or building the agent from them;
      - `Ready`: the agent is built. */
  datatype Integration =
    | Unconfigured
    | SetupFailed(error: string)
    | Ready(agent: string -> AgentRun)

  const AsanaUnconfigured: string := "Asana統合が設定されていません。ASANA_ACCESS_TOKENを設定してください。"
  const AsanaHandlerFailed: string := "Asanaクエリの処理中にエラーが発生しました: "
  const KbUnconfigured: string := "Knowledge Base統合が設定されていません。BEDROCK_KNOWLEDGE_BASE_IDを設定してください。"

  /** `handle_asana_query`. */
  function HandleAsanaQuery(asana: Integration, query: string): (r: string)
    ensures asana.Unconfigured? ==> r == AsanaUnconfigured
    ensures asana.SetupFailed? ==> r == AsanaHandlerFailed + asana.error
    ensures asana.Ready? ==> r == ExecuteAsanaQuery(asana.agent, query)
  {
    match asana
    case Unconfigured => AsanaUnconfigured
    case SetupFailed(e) => AsanaHandlerFailed + e
    case Ready(agent) => ExecuteAsanaQuery(agent, query)
  }

  /** `handle_knowledge_base_query`; a setup failure reads like a failed
      run, since both use the same prefix. */
  function HandleKnowledgeBaseQuery(kb: Integration, query: string): (r: string)
    ensures kb.Unconfigured? ==> r == KbUnconfigured
    ensures kb.SetupFailed? ==> r == KbFailed + kb.error
    ensures kb.Ready? ==> r == ExecuteKnowledgeBaseQuery(kb.agent, query)
  {
    match kb
    case Unconfigured => KbUnconfigured
    case SetupFailed(e) => KbFailed + e
    case Ready(agent) => ExecuteKnowledgeBaseQuery(agent, query)
  }

  /** What one call of the chat model produced: the content of its reply,
      or the text of the exception it raised. */
  datatype ChatRun = Replied(content: string) | ChatFailed(error: string)

  /** The endpoint's outcome: a `{"response": ...}` body, or an HTTP 500
      whose detail is the exception's text. */
  datatype Response = Ok(response: string) | ServerError(detail: string)

  /** `generate` with both integrations and the chat model given. Only the
      general branch can fail: both handlers turn every exception into a
      reply. */
  function Generate(query: string, asana: Integration, kb: Integration, chat: string -> ChatRun): (r: Response)
    ensures RouteOf(query) == AsanaRoute ==> r == Ok(HandleAsanaQuery(asana, query))
    ensures RouteOf(query) == KnowledgeBaseRoute ==> r == Ok(HandleKnowledgeBaseQuery(kb, query))
    ensures RouteOf(query) == GeneralRoute ==>
      r == (match chat(query) case Replied(c) => Ok(c) case ChatFailed(e) => ServerError(e))
    ensures r.ServerError? ==> RouteOf(query) == GeneralRoute && chat(query).ChatFailed?
  {
    match RouteOf(query)
    case AsanaRoute => Ok(HandleAsanaQuery(asana, query))
    case KnowledgeBaseRoute => Ok(HandleKnowledgeBaseQuery(kb, query))
    case GeneralRoute =>
      match chat(query)
      case Replied(content) => Ok(content)
      case ChatFailed(e) => ServerError(e)
  }

  // ---------------------------------------------------------- properties

  /** A prompt that is both task-related and document-related goes to the
      task-management agent. */
  lemma AsanaTakesPrecedence(query: string, asana: Integration, kb: Integration, chat: string -> ChatRun)
    requires IsAsanaRelatedQuery(query) && IsKnowledgeBaseQuery(query)
    ensures Generate(query, asana, kb, chat) == Ok(HandleAsanaQuery(asana, query))
  {
  }

  /** A task-related prompt with the task-management integration missing
      is answered with the configuration message; it does not fall back to
      the document agent or the chat model. */
  lemma UnconfiguredAsanaShortCircuits(query: string, kb: Integration, chat: string -> ChatRun)
    requires IsAsanaRelatedQuery(query)
    ensures Generate(query, Unconfigured, kb, chat) == Ok(AsanaUnconfigured)
  {
  }

  /** Likewise for a document prompt with the knowledge base missing. */
  lemma UnconfiguredKnowledgeBaseShortCircuits(query: string, asana: Integration, chat: string -> ChatRun)
    requires !IsAsanaRelatedQuery(query) && IsKnowledgeBaseQuery(query)
    ensures Generate(query, asana, Unconfigured, chat) == Ok(KbUnconfigured)
  {
  }

  /** The general branch's own call of the chat model on the query is made
      nowhere else: off that route the reply does not depend on what that
      call returns. (The agents are built from the same chat model; here
      they are parameters of their own.) */
  lemma ChatOnlyForGeneral(query: string, asana: Integration, kb: Integration, c1: string -> ChatRun, c2: string -> ChatRun)
    requires RouteOf(query) != GeneralRoute
    ensures Generate(query, asana, kb, c1) == Generate(query, asana, kb, c2)
  {
  }

  /** On the general branch the chat model sees the raw prompt, and its
      reply is passed through untouched. */
  lemma GeneralReplyVerbatim(query: string, asana: Integration, kb: Integration, chat: string -> ChatRun)
    requires RouteOf(query) == GeneralRoute && chat(query).Replied?
    ensures Generate(query, asana, kb, chat) == Ok(chat(query).content)
  {
  }

  /** A document question that names a project is detected as one, yet
      never reaches the document agent: the task-management check claims
      it first. */
  lemma SpecificationQueryGoesToAsana()
    ensures IsKnowledgeBaseQuery("プロジェクトの仕様書はどこにありますか？")
    ensures RouteOf("プロジェクトの仕様書はどこにありますか？") == AsanaRoute
  {
    var q := "プロジェクトの仕様書はどこにありますか？";
    DetectsProjectSpecification();
    assert OccursAt(q, "プロジェクト", 0);
    JapaneseKeywords(q);
  }

  /** A query mentioning tasks goes to the task-management agent in any
      letter case. */
  lemma {:induction false} TaskQueriesGoToAsana(query: string)
    requires Contains(Lower(query), "task") || Contains(query, "タスク")
    ensures RouteOf(query) == AsanaRoute
  {
    if Contains(Lower(query), "task") {
      assert Lower("task") == "task";
      KeywordSuffices(query, "task");
    } else {
      JapaneseKeywords(query);
    }
  }

  /** A question about company rules, with no task-management word, goes
      to the document agent. */
  lemma RulesQueryGoesToKnowledgeBase()
    ensures RouteOf("会社の規程について知りたい") == KnowledgeBaseRoute
  {
    DetectsCompanyRules();
    AsanaIntent.IgnoresCompanyRules();
  }

  /** A greeting goes to the chat model. */
  lemma GreetingGoesToChat()
    ensures RouteOf("こんにちは") == GeneralRoute
  {
    KnowledgeBaseIntent.IgnoresGreeting();
    AsanaIntent.IgnoresGreeting();
  }
}
