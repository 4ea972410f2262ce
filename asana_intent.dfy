/** Keyword intent detection for task-management queries
    (`is_asana_related_query`). */
module AsanaIntent {
  import opened Text

  /** The keyword list, in the source's order; "Asana" is listed in both
      spellings, which folding makes redundant. */
  const AsanaKeywords: seq<string> := [
    "タスク", "task", "tasks",
    "プロジェクト", "project",
    "アサナ", "asana", "Asana",
    "期限", "deadline", "due",
    "担当", "assignee", "assigned",
    "進捗", "progress", "status",
    "コメント", "comment",
    "完了", "complete", "done",
    "作成", "create", "new",
    "更新", "update", "modify"
  ]

  /** The query is task-related when its folded form contains the folded
      form of at least one keyword. */
  predicate IsAsanaRelatedQuery(query: string) {
    var q := Lower(query);
    exists k | k in AsanaKeywords :: Contains(q, Lower(k))
  }

  /** One keyword, when its folded form occurs in the folded query, is
      enough to classify it. */
  lemma KeywordSuffices(query: string, k: string)
    requires k in AsanaKeywords && Contains(Lower(query), Lower(k))
    ensures IsAsanaRelatedQuery(query)
  {
  }

  /** Matching ignores case: a query and its folded form are classified
      alike, in both directions. */
  lemma {:induction false} CaseInsensitive(query: string)
    ensures IsAsanaRelatedQuery(query) <==> IsAsanaRelatedQuery(Lower(query))
  {
    LowerIdempotent(query);
  }

  /** Upper- and mixed-case spellings match. */
  lemma UpperCaseExample()
    ensures IsAsanaRelatedQuery("TASK")
  {
    assert Lower("TASK") == "task";
    assert OccursAt(Lower("TASK"), Lower("task"), 0);
    KeywordSuffices("TASK", "task");
  }

  lemma MixedCaseExample()
    ensures IsAsanaRelatedQuery("Done")
  {
    assert Lower("Done") == "done";
    assert OccursAt(Lower("Done"), Lower("done"), 0);
    KeywordSuffices("Done", "done");
  }

  /** Matching is on raw substrings, not on words: "news" matches through
      "new", and "undone" through "done". */
  lemma SubstringExample()
    ensures IsAsanaRelatedQuery("news")
  {
    assert Lower("news") == "news" && Lower("new") == "new";
    assert OccursAt("news", "new", 0);
    KeywordSuffices("news", "new");
  }

  lemma InnerSubstringExample()
    ensures IsAsanaRelatedQuery("undone")
  {
    assert Lower("undone") == "undone" && Lower("done") == "done";
    assert OccursAt("undone", "done", 2);
    KeywordSuffices("undone", "done");
  }

  /** Every keyword is non-empty, so the empty query is never
      task-related. */
  lemma EmptyQueryNotRelated()
    ensures !IsAsanaRelatedQuery("")
  {
    forall k | k in AsanaKeywords ensures !Contains(Lower(""), Lower(k)) {
      assert |Lower(k)| == |k| > 0;
      NothingInEmpty(Lower(k));
    }
  }

  /** Classification is monotone: a query that contains a task-related
      query is task-related too. */
  lemma {:induction false} Monotone(query: string, longer: string)
    requires Contains(longer, query) && IsAsanaRelatedQuery(query)
    ensures IsAsanaRelatedQuery(longer)
  {
    var k :| k in AsanaKeywords && Contains(Lower(query), Lower(k));
    LowerContains(longer, query);
    ContainsTrans(Lower(longer), Lower(query), Lower(k));
  }

  /** The first characters of the folded keywords. */
  const AsanaInitials: set<char> := {
    'タ', 't', 'プ', 'p', 'ア', 'a', '期', 'd', '担', '進',
    's', 'コ', 'c', '完', '作', 'n', '更', 'u', 'm'
  }

  lemma InitialsListed()
    ensures forall k | k in AsanaKeywords :: k != [] && LowerChar(k[0]) in AsanaInitials
  {
    InitialsListedFrom(0, 14);
    InitialsListedFrom(14, 28);
  }

  lemma InitialsListedFrom(lo: nat, hi: nat)
    requires lo <= hi <= |AsanaKeywords| && hi - lo <= 14
    ensures forall i | lo <= i < hi :: AsanaKeywords[i] != [] && LowerChar(AsanaKeywords[i][0]) in AsanaInitials
  {
  }

  /** A query whose characters avoid every keyword's first character is
      not task-related. */
  lemma NotRelatedOver(query: string, a: set<char>)
    requires Folded(query) && Within(query, a) && a !! AsanaInitials
    ensures !IsAsanaRelatedQuery(query)
  {
    LowerOfFolded(query);
    InitialsListed();
    forall k | k in AsanaKeywords ensures !Contains(query, Lower(k)) {
      assert Lower(k)[0] == LowerChar(k[0]);
      NotContainedOutside(query, Lower(k), a);
    }
  }

  /** A question about company rules mentions no task. */
  lemma IgnoresCompanyRules()
    ensures !IsAsanaRelatedQuery("会社の規程について知りたい")
  {
    var q := "会社の規程について知りたい";
    var a := {'会', '社', 'の', '規', '程', 'に', 'つ', 'い', 'て', '知', 'り', 'た'};
    assert a !! AsanaInitials;
    assert Within(q, a);
    assert Folded(q);
    NotRelatedOver(q, a);
  }

  /** A greeting mentions no task. */
  lemma IgnoresGreeting()
    ensures !IsAsanaRelatedQuery("こんにちは")
  {
    var a := {'こ', 'ん', 'に', 'ち', 'は'};
    assert a !! AsanaInitials;
    NotRelatedOver("こんにちは", a);
  }

  /** The Japanese words for "task" and "project" make any query
      task-related, whatever surrounds them. */
  lemma {:induction false} JapaneseKeywords(query: string)
    requires Contains(query, "タスク") || Contains(query, "プロジェクト")
    ensures IsAsanaRelatedQuery(query)
  {
    if Contains(query, "タスク") {
      FoldedKeywordIn(query, "タスク");
    } else {
      FoldedKeywordIn(query, "プロジェクト");
    }
  }

  /** A keyword without upper-case letters matches wherever it occurs. */
  lemma {:induction false} FoldedKeywordIn(query: string, k: string)
    requires k in AsanaKeywords && Folded(k) && Contains(query, k)
    ensures IsAsanaRelatedQuery(query)
  {
    LowerContains(query, k);
    LowerOfFolded(k);
    KeywordSuffices(query, k);
  }
}
