/** Intent detection for internal-document queries
    (`is_knowledge_base_query`): a keyword scan, then four regular
    expressions tried with `re.search`. */
module KnowledgeBaseIntent {
  import opened Text

  // --------------------------------------------------------------- keywords

  const DocumentKeywords: seq<string> := [
    "文書", "ドキュメント", "資料", "書類", "文献",
    "マニュアル", "ガイド", "手順書", "説明書",
    "規程", "規則", "ポリシー", "方針",
    "仕様書", "設計書", "報告書", "レポート",
    "レコード", "リスト"
  ]

  const OrganizationKeywords: seq<string> := [
    "社内", "会社", "組織", "部署", "チーム",
    "プロジェクト", "製品", "サービス",
    "システム", "ツール", "アプリケーション"
  ]

  const QuestionKeywords: seq<string> := [
    "について教えて", "について説明", "とは何",
    "どのような", "どうやって", "やり方",
    "使い方", "方法", "手順"
  ]

  const RequestKeywords: seq<string> := [
    "最新の", "現在の", "今の",
    "確認したい", "調べたい", "知りたい",
    "探している", "検索", "参照"
  ]

  /** `kb_keywords`: the four groups in the source's order. */
  const KbKeywords: seq<string> :=
    DocumentKeywords + OrganizationKeywords + QuestionKeywords + RequestKeywords

  // --------------------------------------------------------------- patterns

  /** One top-level alternative of a procedure pattern: `.*`, the literal
      `lead`, then one of `tails` (a parenthesised alternation; `[""]` for
      an alternative without a group). */
  datatype Branch = AnyThen(lead: string, tails: seq<string>)

  /** A pattern is the alternation of its branches. */
  type Pattern = seq<Branch>

  /** `procedure_patterns`, in the source's order. */
  const ProcedurePatterns: seq<Pattern> := [
    [AnyThen("の", ["手順", "方法", "やり方", "使い方"])],
    [AnyThen("について", ["教えて", "説明", "知りたい"])],
    [AnyThen("マニュアル", [""]), AnyThen("ガイド", [""]), AnyThen("ドキュメント", [""])],
    [AnyThen("規程", [""]), AnyThen("ポリシー", [""]), AnyThen("ルール", [""])]
  ]

  /** What `.` matches without the DOTALL flag: anything but a newline. */
  predicate NoNewline(w: string) {
    forall i | 0 <= i < |w| :: w[i] != '\n'
  }

  /** Branch `b` matches all of `w`, its `.*` taking the first `k`
      characters and its group choosing `t`. */
  predicate BranchMatchesWith(b: Branch, w: string, k: nat, t: string) {
    k <= |w| && t in b.tails && NoNewline(w[..k]) && w[k..] == b.lead + t
  }

  predicate BranchMatches(b: Branch, w: string) {
    exists k: nat, t | k <= |w| && t in b.tails :: BranchMatchesWith(b, w, k, t)
  }

  predicate PatternMatches(p: Pattern, w: string) {
    exists b | b in p :: BranchMatches(b, w)
  }

  /** `re.search(p, s)` finds a match: some slice of `s` is matched. */
  predicate Search(p: Pattern, s: string) {
    exists i: nat, j: nat | i <= j <= |s| :: PatternMatches(p, s[i..j])
  }

  /** The words of a pattern: a branch's lead followed by one of its tails. */
  predicate IsPatternWord(p: Pattern, w: string) {
    exists b, t | b in p && t in b.tails :: w == b.lead + t
  }

  /** A `.*`-prefixed alternation is found exactly when one of its words
      occurs: the `.*` may match the empty string, so the newline it cannot
      cross never matters. */
  lemma {:induction false} SearchIffContainsWord(p: Pattern, s: string)
    ensures Search(p, s) <==> exists w | IsPatternWord(p, w) :: Contains(s, w)
  {
    if Search(p, s) {
      var i: nat, j: nat :| i <= j <= |s| && PatternMatches(p, s[i..j]);
      var w := s[i..j];
      var b :| b in p && BranchMatches(b, w);
      var k: nat, t :| k <= |w| && t in b.tails && BranchMatchesWith(b, w, k, t);
      var word := b.lead + t;
      assert s[i + k..i + k + |word|] == w[k..];
      assert OccursAt(s, word, i + k);
      assert IsPatternWord(p, word);
    }
    if w :| IsPatternWord(p, w) && Contains(s, w) {
      var b, t :| b in p && t in b.tails && w == b.lead + t;
      var at: nat :| at <= |s| && OccursAt(s, w, at);
      var m := s[at..at + |w|];
      assert m[..0] == [] && m[0..] == m;
      assert BranchMatchesWith(b, m, 0, t);
      assert PatternMatches(p, s[at..at + |w|]);
    }
  }

  // ------------------------------------------------------------- classifier

  /** The keyword scan runs first, then the patterns, both over the folded
      query. */
  predicate IsKnowledgeBaseQuery(query: string) {
    var q := Lower(query);
    ContainsAny(q, KbKeywords) || exists p | p in ProcedurePatterns :: Search(p, q)
  }

  /** Every word of every procedure pattern. */
  const ProcedureWords: seq<string> := [
    "の手順", "の方法", "のやり方", "の使い方",
    "について教えて", "について説明", "について知りたい",
    "マニュアル", "ガイド", "ドキュメント",
    "規程", "ポリシー", "ルール"
  ]

  lemma PatternWordsListed(p: Pattern, w: string)
    requires p in ProcedurePatterns && IsPatternWord(p, w)
    ensures w in ProcedureWords
  {
    var b, t :| b in p && t in b.tails && w == b.lead + t;
    if p == ProcedurePatterns[0] {
      OfWordsListed(t);
    } else if p == ProcedurePatterns[1] {
      AboutWordsListed(t);
    } else {
      assert t == "" && w == b.lead;
    }
  }

  /** The words of `.*の(手順|方法|やり方|使い方)`. */
  lemma OfWordsListed(t: string)
    requires t in ["手順", "方法", "やり方", "使い方"]
    ensures "の" + t in ProcedureWords
  {
    assert "の" + "手順" == "の手順" && "の" + "方法" == "の方法";
    assert "の" + "やり方" == "のやり方" && "の" + "使い方" == "の使い方";
  }

  /** The words of `.*について(教えて|説明|知りたい)`. */
  lemma AboutWordsListed(t: string)
    requires t in ["教えて", "説明", "知りたい"]
    ensures "について" + t in ProcedureWords
  {
    assert "について" + "教えて" == "について教えて" && "について" + "説明" == "について説明";
    assert "について" + "知りたい" == "について知りたい";
  }

  lemma KeywordAt(s: string, k: string, at: nat)
    requires k in KbKeywords && OccursAt(s, k, at)
    ensures ContainsAny(s, KbKeywords)
  {
  }

  /** Every pattern word except `ルール` already contains a keyword. */
  lemma WordsCoveredByKeywords(w: string)
    requires w in ProcedureWords && w != "ルール"
    ensures ContainsAny(w, KbKeywords)
  {
    if w == "の手順" { KeywordAt(w, "手順", 1); }
    else if w == "の方法" { KeywordAt(w, "方法", 1); }
    else if w == "のやり方" { KeywordAt(w, "やり方", 1); }
    else if w == "の使い方" { KeywordAt(w, "使い方", 1); }
    else if w == "について知りたい" { KeywordAt(w, "知りたい", 4); }
    else { KeywordAt(w, w, 0); }
  }

  /** The patterns add exactly one trigger to the keyword scan: a query is
      a document query when its folded form contains a keyword or
      `ルール`. */
  lemma {:induction false} KeywordsOrRule(query: string)
    ensures IsKnowledgeBaseQuery(query) <==>
      ContainsAny(Lower(query), KbKeywords) || Contains(Lower(query), "ルール")
  {
    var q := Lower(query);
    var rules := ProcedurePatterns[3];
    if Contains(q, "ルール") {
      assert IsPatternWord(rules, "ルール") by {
        assert AnyThen("ルール", [""]) in rules && "ルール" == "ルール" + "";
      }
      SearchIffContainsWord(rules, q);
    }
    if p :| p in ProcedurePatterns && Search(p, q) {
      SearchIffContainsWord(p, q);
      var w :| IsPatternWord(p, w) && Contains(q, w);
      PatternWordsListed(p, w);
      if w != "ルール" {
        WordsCoveredByKeywords(w);
        var k :| k in KbKeywords && Contains(w, k);
        ContainsTrans(q, w, k);
      }
    }
  }

  /** `ルール` is a genuine extra trigger: it contains no keyword, yet it is
      a document query. */
  lemma RuleOnlyByPattern()
    ensures !ContainsAny("ルール", KbKeywords)
    ensures IsKnowledgeBaseQuery("ルール")
  {
    RuleHasNoKeyword("ルール");
    LowerOfFolded("ルール");
    ContainsSelf("ルール");
    KeywordsOrRule("ルール");
  }

  const RuleChars: set<char> := {'ル', 'ー'}

  lemma RuleHasNoKeyword(q: string)
    requires q == "ルール"
    ensures !ContainsAny(q, KbKeywords)
  {
    assert Within(q, RuleChars);
    RuleAvoidsInitials();
    DocumentFramed();
    OrganizationFramed();
    QuestionFramed();
    RequestFramed();
    FramedOutside(q, DocumentKeywords, DocumentInitials, DocumentFinals, RuleChars);
    FramedOutside(q, OrganizationKeywords, OrganizationInitials, OrganizationFinals, RuleChars);
    FramedOutside(q, QuestionKeywords, QuestionInitials, QuestionFinals, RuleChars);
    FramedOutside(q, RequestKeywords, RequestInitials, RequestFinals, RuleChars);
    ContainsAnyConcat(q, DocumentKeywords, OrganizationKeywords);
    ContainsAnyConcat(q, DocumentKeywords + OrganizationKeywords, QuestionKeywords);
    ContainsAnyConcat(q, DocumentKeywords + OrganizationKeywords + QuestionKeywords, RequestKeywords);
  }

  lemma RuleAvoidsInitials()
    ensures RuleChars !! DocumentInitials && RuleChars !! OrganizationInitials
    ensures RuleChars !! QuestionInitials && RuleChars !! RequestInitials
  {
  }

  // First and last characters of each keyword group, for the negative
  // examples below.

  /** Every key starts with a character in `initials` and ends with one in
      `finals`. */
  predicate Framed(keys: seq<string>, initials: set<char>, finals: set<char>) {
    forall k | k in keys :: k != [] && k[0] in initials && k[|k| - 1] in finals
  }

  const DocumentInitials: set<char> := {'文', 'ド', '資', '書', 'マ', 'ガ', '手', '説', '規', 'ポ', '方', '仕', '設', '報', 'レ', 'リ'}
  const DocumentFinals: set<char> := {'書', 'ト', '料', '類', '献', 'ル', 'ド', '明', '程', '則', 'ー', '針'}

  lemma DocumentFramed()
    ensures Framed(DocumentKeywords, DocumentInitials, DocumentFinals)
  {
    DocumentInitialsListed();
    DocumentFinalsListed();
  }

  lemma DocumentInitialsListed()
    ensures forall k | k in DocumentKeywords :: k != [] && k[0] in DocumentInitials
  {
  }

  lemma DocumentFinalsListed()
    ensures forall k | k in DocumentKeywords :: k != [] && k[|k| - 1] in DocumentFinals
  {
  }

  const OrganizationInitials: set<char> := {'社', '会', '組', '部', 'チ', 'プ', '製', 'サ', 'シ', 'ツ', 'ア'}
  const OrganizationFinals: set<char> := {'内', '社', '織', '署', 'ム', 'ト', '品', 'ス', 'ル', 'ン'}

  lemma OrganizationFramed()
    ensures Framed(OrganizationKeywords, OrganizationInitials, OrganizationFinals)
  {
  }

  const QuestionInitials: set<char> := {'に', 'と', 'ど', 'や', '使', '方', '手'}
  const QuestionFinals: set<char> := {'て', '明', '何', 'な', '方', '法', '順'}

  lemma QuestionFramed()
    ensures Framed(QuestionKeywords, QuestionInitials, QuestionFinals)
  {
  }

  const RequestInitials: set<char> := {'最', '現', '今', '確', '調', '知', '探', '検', '参'}
  const RequestFinals: set<char> := {'の', 'い', 'る', '索', '照'}

  lemma RequestFramed()
    ensures Framed(RequestKeywords, RequestInitials, RequestFinals)
  {
  }

  /** No key occurs in a string over `a` when `a` shares no character with
      the keys' initials, or none with their finals. */
  lemma FramedOutside(s: string, keys: seq<string>, initials: set<char>, finals: set<char>, a: set<char>)
    requires Framed(keys, initials, finals) && Within(s, a)
    requires a !! initials || a !! finals
    ensures !ContainsAny(s, keys)
  {
    NoneContainedOutside(s, keys, a);
  }

  /** A folded query with none of the keywords and without `ルール` is not a
      document query. */
  lemma NoTrigger(q: string)
    requires Folded(q)
    requires !ContainsAny(q, DocumentKeywords) && !ContainsAny(q, OrganizationKeywords)
    requires !ContainsAny(q, QuestionKeywords) && !ContainsAny(q, RequestKeywords)
    requires !Contains(q, "ルール")
    ensures !IsKnowledgeBaseQuery(q)
  {
    ContainsAnyConcat(q, DocumentKeywords, OrganizationKeywords);
    ContainsAnyConcat(q, DocumentKeywords + OrganizationKeywords, QuestionKeywords);
    ContainsAnyConcat(q, DocumentKeywords + OrganizationKeywords + QuestionKeywords, RequestKeywords);
    LowerOfFolded(q);
    KeywordsOrRule(q);
  }

  lemma EmptyQueryNotKnowledgeBase()
    ensures !IsKnowledgeBaseQuery("")
  {
    NoTriggerOver("", {});
  }

  lemma Detected(q: string, k: string)
    requires Folded(q) && k in KbKeywords && OccursAt(q, k, 0)
    ensures IsKnowledgeBaseQuery(q)
  {
    LowerOfFolded(q);
  }

  // The queries the detection test expects to be document queries.

  lemma DetectsSecurityPolicy()
    ensures IsKnowledgeBaseQuery("社内のセキュリティポリシーについて教えて")
  {
    Detected("社内のセキュリティポリシーについて教えて", "社内");
  }

  lemma DetectsLatestManual()
    ensures IsKnowledgeBaseQuery("最新のマニュアルを確認したい")
  {
    Detected("最新のマニュアルを確認したい", "最新の");
  }

  lemma DetectsProjectSpecification()
    ensures IsKnowledgeBaseQuery("プロジェクトの仕様書はどこにありますか？")
  {
    Detected("プロジェクトの仕様書はどこにありますか？", "プロジェクト");
  }

  lemma DetectsCompanyRules()
    ensures IsKnowledgeBaseQuery("会社の規程について知りたい")
  {
    Detected("会社の規程について知りたい", "会社");
  }

  lemma DetectsSystemUsage()
    ensures IsKnowledgeBaseQuery("システムの使い方を教えて")
  {
    Detected("システムの使い方を教えて", "システム");
  }

  // The queries the detection test expects to be ordinary queries.

  /** A folded query over an alphabet that misses, for every keyword
      group, all the group's initials or all its finals, and misses a
      character of `ルール`, is not a document query. */
  lemma NoTriggerOver(q: string, a: set<char>)
    requires Folded(q) && Within(q, a)
    requires a !! DocumentInitials || a !! DocumentFinals
    requires a !! OrganizationInitials || a !! OrganizationFinals
    requires a !! QuestionInitials || a !! QuestionFinals
    requires a !! RequestInitials || a !! RequestFinals
    requires EndsOutside("ルール", a)
    ensures !IsKnowledgeBaseQuery(q)
  {
    assert !ContainsAny(q, DocumentKeywords) by {
      DocumentFramed();
      FramedOutside(q, DocumentKeywords, DocumentInitials, DocumentFinals, a);
    }
    assert !ContainsAny(q, OrganizationKeywords) by {
      OrganizationFramed();
      FramedOutside(q, OrganizationKeywords, OrganizationInitials, OrganizationFinals, a);
    }
    assert !ContainsAny(q, QuestionKeywords) by {
      QuestionFramed();
      FramedOutside(q, QuestionKeywords, QuestionInitials, QuestionFinals, a);
    }
    assert !ContainsAny(q, RequestKeywords) by {
      RequestFramed();
      FramedOutside(q, RequestKeywords, RequestInitials, RequestFinals, a);
    }
    NotContainedOutside(q, "ルール", a);
    NoTrigger(q);
  }

  lemma IgnoresArithmetic()
    ensures !IsKnowledgeBaseQuery("計算して: 100 + 200")
  {
    ArithmeticOver("計算して: 100 + 200");
  }

  const ArithmeticChars: set<char> := {'計', '算', 'し', 'て', ':', ' ', '1', '0', '+', '2'}

  lemma ArithmeticOver(q: string)
    requires q == "計算して: 100 + 200"
    ensures !IsKnowledgeBaseQuery(q)
  {
    assert Folded(q) && Within(q, ArithmeticChars) && EndsOutside("ルール", ArithmeticChars);
    ArithmeticAvoidsDocument();
    ArithmeticAvoidsOrganization();
    ArithmeticAvoidsQuestion();
    ArithmeticAvoidsRequest();
    NoTriggerOver(q, ArithmeticChars);
  }

  lemma ArithmeticAvoidsDocument()
    ensures ArithmeticChars !! DocumentInitials
  {
  }

  lemma ArithmeticAvoidsOrganization()
    ensures ArithmeticChars !! OrganizationInitials
  {
  }

  lemma ArithmeticAvoidsQuestion()
    ensures ArithmeticChars !! QuestionInitials
  {
  }

  lemma ArithmeticAvoidsRequest()
    ensures ArithmeticChars !! RequestInitials
  {
  }

  lemma IgnoresGreeting()
    ensures !IsKnowledgeBaseQuery("こんにちは")
  {
    GreetingOver("こんにちは");
  }

  const GreetingChars: set<char> := {'こ', 'ん', 'に', 'ち', 'は'}

  lemma GreetingOver(q: string)
    requires q == "こんにちは"
    ensures !IsKnowledgeBaseQuery(q)
  {
    assert Folded(q) && Within(q, GreetingChars) && EndsOutside("ルール", GreetingChars);
    GreetingAvoidsFrames();
    NoTriggerOver(q, GreetingChars);
  }

  lemma GreetingAvoidsFrames()
    ensures GreetingChars !! DocumentInitials && GreetingChars !! OrganizationInitials
    ensures GreetingChars !! QuestionFinals && GreetingChars !! RequestInitials
  {
  }

  /** "今日の天気は？" holds both characters of the keyword "今の", but not
      next to each other. */
  lemma IgnoresWeather()
    ensures !IsKnowledgeBaseQuery("今日の天気は？")
  {
    WeatherOver("今日の天気は？");
  }

  const WeatherChars: set<char> := {'今', '日', 'の', '天', '気', 'は', '？'}

  lemma WeatherOver(q: string)
    requires q == "今日の天気は？"
    ensures !IsKnowledgeBaseQuery(q)
  {
    assert Folded(q) && Within(q, WeatherChars) && EndsOutside("ルール", WeatherChars);
    WeatherAvoidsDocument();
    WeatherAvoidsOrganization();
    WeatherAvoidsQuestion();
    DocumentFramed();
    OrganizationFramed();
    QuestionFramed();
    FramedOutside(q, DocumentKeywords, DocumentInitials, DocumentFinals, WeatherChars);
    FramedOutside(q, OrganizationKeywords, OrganizationInitials, OrganizationFinals, WeatherChars);
    FramedOutside(q, QuestionKeywords, QuestionInitials, QuestionFinals, WeatherChars);
    WeatherNoRequest(q);
    NotContainedOutside(q, "ルール", WeatherChars);
    NoTrigger(q);
  }

  lemma WeatherAvoidsDocument()
    ensures WeatherChars !! DocumentInitials
  {
  }

  lemma WeatherAvoidsOrganization()
    ensures WeatherChars !! OrganizationInitials
  {
  }

  lemma WeatherAvoidsQuestion()
    ensures WeatherChars !! QuestionInitials
  {
  }

  /** Only "今の" of the request keywords has both ends in the query. */
  lemma WeatherNoRequest(q: string)
    requires q == "今日の天気は？"
    ensures !ContainsAny(q, RequestKeywords)
  {
    assert Within(q, WeatherChars);
    assert !Contains(q, "今の") by {
      assert !OccursAt(q, "今の", 0) by { assert q[1] != "今の"[1]; }
      NotContainedOutside(q[1..], "今の", WeatherChars - {'今'});
    }
    forall k | k in RequestKeywords ensures !Contains(q, k) {
      if k != "今の" { NotContainedOutside(q, k, WeatherChars); }
    }
  }
}
