# Query routing and answer extraction of the LangChain agent service

This project models the request path of a small FastAPI service. The
service answers a Japanese or English prompt in one of three ways. Prompts
about tasks and projects go to an Asana agent that uses tools. Prompts
about internal documents go to an agent that searches a Bedrock knowledge
base. Everything else goes straight to the chat model.

The model covers:

- the two keyword classifiers, `is_asana_related_query` and
  `is_knowledge_base_query`;
- the `/generate` dispatch and the two handlers with their
  "not configured" guards;
- `execute_asana_query` and `execute_knowledge_base_query`, which run an
  agent and pull the final answer out of its message list: a backward scan
  that skips messages with tool calls, cuts `<thinking>...</thinking>`
  spans and strips whitespace.

The modules follow the program's structure:

- `Text` (text.dfy): Python's `in` on strings, `str.lower()` and
  `str.strip()`.
- `AsanaIntent` (asana_intent.dfy): the task-management classifier.
- `KnowledgeBaseIntent` (knowledge_base_intent.dfy): the document
  classifier. This includes its four regular expressions, modelled as
  data with their search semantics.
- `Extraction` (extraction.dfy): the `<thinking>` filter and the reply
  extractor. `ExtractResponse` is the loop itself, proved equal to the
  recursive specification `ExtractReply`.
- `Agents` (agents.dfy): the enhanced prompt and the two `execute_*`
  functions.
- `Router` (router.dfy): `generate` and the handlers.

The outside world enters only through parameters:

- An agent is a total function from the prompt it is handed to an
  `AgentRun`: either its `messages` entry (possibly missing) or the text of
  the exception it raised.
- The chat model is a function from the prompt to its reply content or to
  an exception text. The source builds both agents from that same chat
  model; the model takes each agent as a parameter of its own.
- The state of each integration is an `Integration`:
  - `Unconfigured`: the client global is `None`. Either its environment
    variable was missing at startup, or initialising the client raised and
    `lifespan` reset the global to `None`
    (ypd-langchain/app/main.py:38-40 and 50-52). In both cases the handler
    answers with the same configuration message.
  - `SetupFailed(error)`: preparing the agent raised. That is fetching the
    tools or the retriever, or building the agent from them
    (`create_asana_agent`, `create_knowledge_base_agent`), all inside the
    handler's `try`.
  - `Ready(agent)`.

The comment `# Find the last AI message` (ypd-langchain/app/agent_helper.py:86
and ypd-langchain/app/knowledge_base.py:192) promises AI messages only. The
code never looks at a message's role, though: the extractor returns the
newest message with usable text, whichever role produced it
(`Extraction.HumanMessageAnswers`). The model follows the code.

Both extractors behave the same. The document extractor writes
`if content: return content` and the task extractor writes
`if not content: continue` before returning, so both are modelled by the
one `ExtractReply`.

## Model

| member | source | states |
|---|---|---|
| Text.Lower | ypd-langchain/app/asana_mcp.py:86 | folding keeps the length and maps every character through ASCII `A`-`Z` to `a`-`z` folding |
| Text.LowerContains | ypd-langchain/app/asana_mcp.py:86-87 | folding preserves substring containment |
| Text.LowerIdempotent | ypd-langchain/app/asana_mcp.py:86 | folding twice is folding once |
| Text.Strip | ypd-langchain/app/agent_helper.py:96 | the result has no whitespace at either end; it is empty exactly when the input is all whitespace; it is a window of the input with only whitespace cut on both sides |
| Text.StripTrimmed | ypd-langchain/app/knowledge_base.py:202 | stripping leaves a string with no whitespace at either end unchanged |
| Text.StripIdempotent | ypd-langchain/app/knowledge_base.py:202 | stripping twice is stripping once |
| Text.Contains | ypd-langchain/app/asana_mcp.py:87 | Python's `sub in s`: `sub` occurs in `s` at some index |
| Text.ContainsAny | ypd-langchain/app/knowledge_base.py:96-99 | the short-circuiting keyword loop returns True exactly when some entry of the list occurs in the text |
| Text.IsSpace | ypd-langchain/app/agent_helper.py:96 | the characters `str.strip()` removes: Python's `str.isspace()` set (tab through carriage return, the information separators, space, next line, no-break space, ogham space, the typographic spaces, the line and paragraph separators, narrow no-break space, medium mathematical space and ideographic space) |
| Text.ContainsTrans | ypd-langchain/app/asana_mcp.py:87 | a substring of a substring is a substring |
| AsanaIntent.IsAsanaRelatedQuery | ypd-langchain/app/asana_mcp.py:86-87 | a query is task-related exactly when its folded form contains the folded form of one of the 28 listed keywords |
| AsanaIntent.KeywordSuffices | ypd-langchain/app/asana_mcp.py:73-87 | one listed keyword whose folded form occurs in the folded query makes the query task-related |
| AsanaIntent.CaseInsensitive | ypd-langchain/app/asana_mcp.py:86-87 | a query and its folded form are classified alike, in both directions |
| AsanaIntent.UpperCaseExample | ypd-langchain/app/asana_mcp.py:73-87 | "TASK" is task-related: matching ignores upper case |
| AsanaIntent.MixedCaseExample | ypd-langchain/app/asana_mcp.py:80-87 | "Done" is task-related |
| AsanaIntent.SubstringExample | ypd-langchain/app/asana_mcp.py:80-87 | "news" is task-related: it matches through the keyword "new" |
| AsanaIntent.InnerSubstringExample | ypd-langchain/app/asana_mcp.py:80-87 | "undone" is task-related: it matches through "done" inside the word |
| AsanaIntent.EmptyQueryNotRelated | ypd-langchain/app/asana_mcp.py:87 | the empty query is not task-related |
| AsanaIntent.Monotone | ypd-langchain/app/asana_mcp.py:87 | a query containing a task-related query is task-related |
| AsanaIntent.JapaneseKeywords | ypd-langchain/app/asana_mcp.py:74-75 | any query containing タスク or プロジェクト is task-related |
| AsanaIntent.FoldedKeywordIn | ypd-langchain/app/asana_mcp.py:86-87 | a keyword with no upper-case letters makes any query that contains it task-related |
| AsanaIntent.InitialsListed | ypd-langchain/app/asana_mcp.py:73-84 | every keyword is non-empty and its folded first character is in the listed set of initials |
| AsanaIntent.NotRelatedOver | ypd-langchain/app/asana_mcp.py:73-87 | a folded query whose characters avoid every keyword's initial is not task-related |
| AsanaIntent.IgnoresCompanyRules | ypd-langchain/app/asana_mcp.py:73-87 | "会社の規程について知りたい" is not task-related |
| AsanaIntent.IgnoresGreeting | ypd-langchain/app/asana_mcp.py:73-87 | "こんにちは" is not task-related |
| KnowledgeBaseIntent.Search | ypd-langchain/app/knowledge_base.py:110-111 | `re.search` succeeds exactly when some slice of the text is matched by a branch of the pattern: characters other than a newline for `.*`, then the branch's literal and one of its group's alternatives |
| KnowledgeBaseIntent.IsKnowledgeBaseQuery | ypd-langchain/app/knowledge_base.py:93-115 | a query is document-related exactly when its folded form contains one of the 48 keywords or one of the four procedure patterns is found in it |
| KnowledgeBaseIntent.SearchIffContainsWord | ypd-langchain/app/knowledge_base.py:103-113 | a search with one of the `.*`-prefixed alternation patterns succeeds exactly when the query contains one of the literal words the pattern spells out |
| KnowledgeBaseIntent.PatternWordsListed | ypd-langchain/app/knowledge_base.py:103-108 | every word spelled out by the four procedure patterns is one of the thirteen listed words |
| KnowledgeBaseIntent.WordsCoveredByKeywords | ypd-langchain/app/knowledge_base.py:68-108 | every pattern word except ルール contains a listed keyword |
| KnowledgeBaseIntent.KeywordAt | ypd-langchain/app/knowledge_base.py:96-99 | a keyword occurring at some position is found by the keyword loop |
| KnowledgeBaseIntent.KeywordsOrRule | ypd-langchain/app/knowledge_base.py:68-115 | a query is document-related exactly when its folded form contains a listed keyword or ルール |
| KnowledgeBaseIntent.RuleOnlyByPattern | ypd-langchain/app/knowledge_base.py:107 | ルール contains no keyword yet is document-related, through the patterns alone |
| KnowledgeBaseIntent.DocumentFramed | ypd-langchain/app/knowledge_base.py:69-74 | each document keyword starts with a listed initial and ends with a listed final |
| KnowledgeBaseIntent.OrganizationFramed | ypd-langchain/app/knowledge_base.py:76-79 | the same for the organisation keywords |
| KnowledgeBaseIntent.QuestionFramed | ypd-langchain/app/knowledge_base.py:81-84 | the same for the question keywords |
| KnowledgeBaseIntent.RequestFramed | ypd-langchain/app/knowledge_base.py:86-89 | the same for the request keywords |
| KnowledgeBaseIntent.FramedOutside | ypd-langchain/app/knowledge_base.py:96-99 | no keyword of a group occurs in a string over an alphabet that avoids the group's initials or its finals |
| KnowledgeBaseIntent.NoTrigger | ypd-langchain/app/knowledge_base.py:96-115 | a folded query with no keyword of any group and no ルール is not document-related |
| KnowledgeBaseIntent.NoTriggerOver | ypd-langchain/app/knowledge_base.py:96-115 | a folded query over an alphabet that excludes an end of every keyword group and of ルール is not document-related |
| KnowledgeBaseIntent.EmptyQueryNotKnowledgeBase | ypd-langchain/app/knowledge_base.py:115 | the empty query is not document-related |
| KnowledgeBaseIntent.Detected | ypd-langchain/app/knowledge_base.py:96-99 | a folded query that starts with a keyword is document-related |
| KnowledgeBaseIntent.DetectsSecurityPolicy | ypd-langchain/app/test_kb.py:14 | "社内のセキュリティポリシーについて教えて" is document-related |
| KnowledgeBaseIntent.DetectsLatestManual | ypd-langchain/app/test_kb.py:15 | "最新のマニュアルを確認したい" is document-related |
| KnowledgeBaseIntent.DetectsProjectSpecification | ypd-langchain/app/test_kb.py:16 | "プロジェクトの仕様書はどこにありますか？" is document-related |
| KnowledgeBaseIntent.DetectsCompanyRules | ypd-langchain/app/test_kb.py:17 | "会社の規程について知りたい" is document-related |
| KnowledgeBaseIntent.DetectsSystemUsage | ypd-langchain/app/test_kb.py:18 | "システムの使い方を教えて" is document-related |
| KnowledgeBaseIntent.IgnoresWeather | ypd-langchain/app/test_kb.py:21 | "今日の天気は？" is not document-related |
| KnowledgeBaseIntent.WeatherNoRequest | ypd-langchain/app/test_kb.py:21 | "今日の天気は？" contains no request keyword, though it holds both characters of 今の apart |
| KnowledgeBaseIntent.IgnoresArithmetic | ypd-langchain/app/test_kb.py:22 | "計算して: 100 + 200" is not document-related |
| KnowledgeBaseIntent.IgnoresGreeting | ypd-langchain/app/test_kb.py:23 | "こんにちは" is not document-related |
| Extraction.FindFrom | ypd-langchain/app/agent_helper.py:96 | returns the earliest occurrence of the pattern at or after the start index, with none before it, or None when there is none |
| Extraction.StripThinking | ypd-langchain/app/agent_helper.py:96 | the filtered text is never longer than the input |
| Extraction.NoOpenerUnchanged | ypd-langchain/app/agent_helper.py:96 | text without `<thinking>` passes the filter unchanged |
| Extraction.NoCloserUnchanged | ypd-langchain/app/knowledge_base.py:202 | text without `</thinking>` anywhere passes the filter unchanged |
| Extraction.NoLaterCloser | ypd-langchain/app/agent_helper.py:96 | an opener that no closer follows is kept with everything after it, even when a closer comes before it: text with no opener before some index and no closer from that index on passes the filter unchanged |
| Extraction.SpanAtStart | ypd-langchain/app/agent_helper.py:96 | an opener at the front is cut together with everything up to its earliest following closer, and the scan resumes after that closer |
| Extraction.KeepsHead | ypd-langchain/app/agent_helper.py:96 | where no opener starts within the prefix `a` of a text `a + <thinking> m </thinking> b`, the filter keeps `a[0]` and goes on with the rest |
| Extraction.SpanRemoved | ypd-langchain/app/agent_helper.py:96 | with no opener before it and no closer inside it, a span from `<thinking>` through the first `</thinking>` disappears, newlines included, and the text around it is kept |
| Extraction.ThinkingExample | ypd-langchain/app/knowledge_base.py:199-205 | a message "`<thinking>`ignore this`</thinking>`visible answer" yields "visible answer" |
| Extraction.Answer | ypd-langchain/app/agent_helper.py:88-102 | a message answers only when it has text and no tool calls, and its answer is non-empty with no whitespace at either end |
| Extraction.LastAnswer | ypd-langchain/app/knowledge_base.py:193-205 | the answer found by the backward scan is non-empty with no whitespace at either end |
| Extraction.LastAnswerNone | ypd-langchain/app/knowledge_base.py:193-207 | the scan finds no answer exactly when no message has one |
| Extraction.LastAnswerIsNewest | ypd-langchain/app/agent_helper.py:87-102 | the scan returns the answer of the newest message that has one, whatever the older messages hold |
| Extraction.Newest | ypd-langchain/app/agent_helper.py:87 | the scan over `reversed(messages)`: the value of the last message, if it has one, else the scan of the messages before it |
| Extraction.NewestOfSome | ypd-langchain/app/agent_helper.py:87-102 | whatever the backward scan returns is the value of some message in the list |
| Extraction.NewestNone | ypd-langchain/app/agent_helper.py:87-107 | the backward scan finds nothing exactly when no message has a value |
| Extraction.NewestAt | ypd-langchain/app/agent_helper.py:87-102 | the backward scan returns the value of the newest message that has one |
| Extraction.ExtractReply | ypd-langchain/app/knowledge_base.py:191-209 | a missing or empty list yields the processing-error text; otherwise the reply is the newest answer, or the caller's not-found text when there is none |
| Extraction.ExtractResponse | ypd-langchain/app/agent_helper.py:85-107 | the backward loop with `continue` and early return computes exactly `ExtractReply` |
| Extraction.ToolCallsSkipped | ypd-langchain/app/agent_helper.py:90-91 | appending a message with tool calls never changes the answer, whatever text it carries |
| Extraction.BlankSkipped | ypd-langchain/app/agent_helper.py:98-100 | appending a message that is empty after filtering and stripping never changes the answer |
| Extraction.PlainAnswer | ypd-langchain/app/agent_helper.py:93-102 | a message without `<thinking>` answers with its text stripped |
| Extraction.ToolCallThenAnswer | ypd-langchain/app/knowledge_base.py:193-205 | a final message with tool calls is passed over for the plain answer before it |
| Extraction.HumanMessageAnswers | ypd-langchain/app/knowledge_base.py:193-205 | no role is checked: a lone human message with text is returned as the answer |
| Agents.EnhancedQuery | ypd-langchain/app/agent_helper.py:72-77 | the prompt is the query verbatim followed by the fixed instruction text |
| Agents.EnhancedQueryInjective | ypd-langchain/app/agent_helper.py:72-77 | distinct queries give distinct prompts |
| Agents.ExecuteAsanaQuery | ypd-langchain/app/agent_helper.py:70-111 | the agent is run on the enhanced prompt; a raised exception gives "エラーが発生しました: " and its text; otherwise the extracted reply with the Asana not-found text |
| Agents.ExecuteKnowledgeBaseQuery | ypd-langchain/app/knowledge_base.py:184-213 | the agent is run on the raw query; a raised exception gives "文書検索中にエラーが発生しました: " and its text; otherwise the extracted reply with the document not-found text |
| Agents.AsanaAgentSeesEnhancedQuery | ypd-langchain/app/agent_helper.py:80-82 | the reply depends on the agent only through what it does with the enhanced prompt |
| Agents.KnowledgeBaseAgentSeesQuery | ypd-langchain/app/knowledge_base.py:186-188 | the reply depends on the agent only through what it does with the raw query |
| Agents.CompletedRunReplies | ypd-langchain/app/agent_helper.py:105 | for a non-empty list, extraction with each agent's not-found text gives that text when no message answers; when one does, both extractions give the same non-empty stripped text |
| Agents.EmptyRunIsProcessingError | ypd-langchain/app/agent_helper.py:107 | a missing or empty message list gives the processing-error text for either agent |
| Router.RouteOf | ypd-langchain/app/main.py:133-141 | exactly one route is taken: Asana exactly when task-related; knowledge base exactly when not task-related but document-related; general exactly when neither |
| Router.HandleAsanaQuery | ypd-langchain/app/main.py:67-86 | an unset client gives the configuration message; a failed setup gives "Asanaクエリの処理中にエラーが発生しました: " and the error; otherwise the agent's reply |
| Router.HandleKnowledgeBaseQuery | ypd-langchain/app/main.py:89-108 | an unset client gives the configuration message; a failed setup gives "文書検索中にエラーが発生しました: " and the error; otherwise the agent's reply |
| Router.Generate | ypd-langchain/app/main.py:111-147 | each route's handler produces the reply; an HTTP 500 arises only on the general route when the chat model raised |
| Router.AsanaTakesPrecedence | ypd-langchain/app/main.py:133-138 | a prompt that both classifiers accept is handled by the Asana handler |
| Router.UnconfiguredAsanaShortCircuits | ypd-langchain/app/main.py:69-70 | a task-related prompt without the Asana client gets the configuration message, whatever the other integrations |
| Router.UnconfiguredKnowledgeBaseShortCircuits | ypd-langchain/app/main.py:91-92 | a document prompt without the knowledge-base client gets the configuration message |
| Router.ChatOnlyForGeneral | ypd-langchain/app/main.py:111-141 | the general branch's own call of the chat model on the query (`handle_general_query`) is made nowhere else: off that route the reply does not depend on what that call returns |
| Router.GeneralReplyVerbatim | ypd-langchain/app/main.py:111-114 | on the general route the chat model's reply content is returned untouched |
| Router.SpecificationQueryGoesToAsana | ypd-langchain/app/main.py:133 | "プロジェクトの仕様書はどこにありますか？" is document-related, yet it is routed to Asana |
| Router.TaskQueriesGoToAsana | ypd-langchain/app/main.py:133-135 | a prompt containing "task" in any letter case, or タスク, goes to Asana |
| Router.RulesQueryGoesToKnowledgeBase | ypd-langchain/app/main.py:136-138 | "会社の規程について知りたい" goes to the knowledge base |
| Router.GreetingGoesToChat | ypd-langchain/app/main.py:139-141 | "こんにちは" goes to the chat model |

## Left out

- Router.ChatOnlyForGeneral: both agents are built from the same chat model
  as the general branch (`create_asana_agent` and
  `create_knowledge_base_agent` receive it). The model takes each agent as a
  parameter of its own, so it does not tie an agent's run to the chat model.
  The lemma states only that the general branch's own call is unused off
  that route.
- `str.lower()` is modelled only for ASCII `A`-`Z`. Every keyword is
  ASCII or Japanese, and `Lower` folds ASCII exactly as Python does, so the
  keyword side is exact. A query with
  other cased letters (Greek, full-width Latin, ...) is folded less than
  Python would fold it.
- Message content that is not a string (lists of content blocks) is not
  modelled. A message is modelled as its text and a flag saying whether it
  carries tool calls.
- The client classes, `AsanaMCPClient` and `KnowledgeBaseClient`, are not
  part of this model. Neither are `lifespan`, which creates them, or
  agent creation (`create_asana_agent`, `create_knowledge_base_agent`).
  Their net effect enters as the `Integration` parameter.
- The agents and the chat model are language-model calls. They enter as
  function parameters.
- Building `ChatBedrock` at the start of `generate` is not modelled: a
  failure there would also end in an HTTP 500.
- The `/` and `/health` endpoints and the logging calls are left out.
- `test_kb_client` is left out; it needs a live retrieval service.
- Router.Generate: a chat reply is modelled as a string; any other kind of
  content returned by the chat model is out of scope.
- Extraction.StripThinking: its contract states only the length bound.
  Its meaning is given by the lemmas beside it (unchanged without an
  opener or a closer; one span cut at the first closer).
- Because the model works on values, the extractor cannot change the
  input messages, and the reply depends only on the message list.
