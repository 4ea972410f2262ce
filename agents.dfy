/** Running one of the two tool-using agents on a query and turning its
    output into the reply text (`execute_asana_query` and
    `execute_knowledge_base_query`). The agent itself, a language model
    driving tools, is a parameter: a total function from the prompt it is
    handed to what its run produced. */
module Agents {
  import opened Text
  import opened Extraction

  /** What one agent run produced: the `messages` entry of its result
      (None when the entry is missing), or the text of the exception it
      raised. An empty list and a missing entry are alike to the caller. */
  datatype AgentRun = Completed(messages: Option<seq<Message>>) | Raised(error: string)

  // --------------------------------------------------------------- Asana

  /** The instructions appended to every task-management query: list the
      workspaces before searching for projects, and answer in Japanese. */
  const AsanaInstructions: string :=
    "\n\n注意: \n- プロジェクト一覧を取得する場合は、まずasana_list_workspacesでワークスペースを取得してください\n- その後、各ワークスペースに対してasana_search_projectsを使用してプロジェクトを検索してください\n- 最終的な応答は日本語で、ユーザーにわかりやすく整形してください"

  const AsanaNotFound: string := "申し訳ございません。Asanaからの情報を取得できませんでした。"
  const AsanaRunFailed: string := "エラーが発生しました: "

  /** The prompt the task-management agent is handed: the query verbatim,
      then the instructions. */
  function EnhancedQuery(query: string): (r: string)
    ensures |r| == |query| + |AsanaInstructions|
    ensures r[..|query|] == query && r[|query|..] == AsanaInstructions
  {
    query + AsanaInstructions
  }

  /** Distinct queries give distinct prompts: nothing of the query is lost. */
  lemma EnhancedQueryInjective(a: string, b: string)
    requires EnhancedQuery(a) == EnhancedQuery(b)
    ensures a == b
  {
    assert |a| == |b|;
  }

  /** `execute_asana_query`: run the agent on the enhanced prompt and
      extract its answer; a raised exception becomes an error reply. */
  function ExecuteAsanaQuery(agent: string -> AgentRun, query: string): (r: string)
    ensures agent(EnhancedQuery(query)).Raised? ==> r == AsanaRunFailed + agent(EnhancedQuery(query)).error
    ensures agent(EnhancedQuery(query)).Completed? ==>
      r == ExtractReply(agent(EnhancedQuery(query)).messages, AsanaNotFound)
  {
    match agent(EnhancedQuery(query))
    case Raised(e) => AsanaRunFailed + e
    case Completed(ms) => ExtractReply(ms, AsanaNotFound)
  }

  // ------------------------------------------------------ knowledge base

  const KbNotFound: string := "申し訳ございません。関連する文書が見つかりませんでした。"
  const KbFailed: string := "文書検索中にエラーが発生しました: "

  /** `execute_knowledge_base_query`: run the agent on the query as it is
      and extract its answer; a raised exception becomes an error reply. */
  function ExecuteKnowledgeBaseQuery(agent: string -> AgentRun, query: string): (r: string)
    ensures agent(query).Raised? ==> r == KbFailed + agent(query).error
    ensures agent(query).Completed? ==> r == ExtractReply(agent(query).messages, KbNotFound)
  {
    match agent(query)
    case Raised(e) => KbFailed + e
    case Completed(ms) => ExtractReply(ms, KbNotFound)
  }

  // ---------------------------------------------------------- properties

  /** The task-management agent sees the enhanced prompt and nothing else:
      two agents that answer it alike give the same reply. */
  lemma AsanaAgentSeesEnhancedQuery(a1: string -> AgentRun, a2: string -> AgentRun, query: string)
    requires a1(EnhancedQuery(query)) == a2(EnhancedQuery(query))
    ensures ExecuteAsanaQuery(a1, query) == ExecuteAsanaQuery(a2, query)
  {
  }

  /** The document agent sees the raw query and nothing else. */
  lemma KnowledgeBaseAgentSeesQuery(a1: string -> AgentRun, a2: string -> AgentRun, query: string)
    requires a1(query) == a2(query)
    ensures ExecuteKnowledgeBaseQuery(a1, query) == ExecuteKnowledgeBaseQuery(a2, query)
  {
  }

  /** A run whose messages hold no answer yields the caller's not-found
      text, a different one for each agent; a run whose messages hold one
      yields the same non-empty, stripped text for both. */
  lemma {:induction false} CompletedRunReplies(ms: seq<Message>)
    requires ms != []
    ensures Silent(ms) ==> ExtractReply(Some(ms), KbNotFound) == KbNotFound
    ensures Silent(ms) ==> ExtractReply(Some(ms), AsanaNotFound) == AsanaNotFound
    ensures !Silent(ms) ==> ExtractReply(Some(ms), KbNotFound) == ExtractReply(Some(ms), AsanaNotFound)
    ensures !Silent(ms) ==> ExtractReply(Some(ms), KbNotFound) != [] && Trimmed(ExtractReply(Some(ms), KbNotFound))
  {
    LastAnswerNone(ms);
  }

  /** The run completed without a message list, or with an empty one. */
  predicate EmptyRun(run: AgentRun) {
    run == Completed(None) || run == Completed(Some([]))
  }

  /** A missing or empty message list is a processing error, for either
      agent. */
  lemma EmptyRunIsProcessingError(agent: string -> AgentRun, query: string)
    ensures EmptyRun(agent(query)) ==> ExecuteKnowledgeBaseQuery(agent, query) == ProcessingError
    ensures EmptyRun(agent(EnhancedQuery(query))) ==> ExecuteAsanaQuery(agent, query) == ProcessingError
  {
  }
}
