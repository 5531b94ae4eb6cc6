// Conversation-tip and product recommendations
// (recommendation/service/RecommendationService.java).

module Recommendations {
  import opened Common

  // ------------------------------------------------------ conversation tips

  const ConcernedStatus: string := "CONCERNED"
  const ConcernQuestion: string := "요즘 어떠세요? 걱정되는 일이 있으신가요?"
  const SupportQuestion: string := "힘든 일이 있으면 언제든 말씀해주세요"
  const MaxQuestions: nat := 5

  /** The five keywords that have a follow-up question. */
  const QuestionKeywords: set<string> := {"무릎", "병원", "손주", "친구", "날씨"}

  predicate IsQuestionKeyword(k: string)
  {
    k in QuestionKeywords
  }

  /** The follow-up question for a keyword (Map.get on the fixed table). */
  function QuestionFor(keyword: string): (q: Option<string>)
    ensures q.Some? <==> keyword in QuestionKeywords
  {
    if keyword == "무릎" then Some("무릎은 좀 어떠세요? 많이 불편하신가요?")
    else if keyword == "병원" then Some("병원 다녀오셨어요? 어떻게 되셨나요?")
    else if keyword == "손주" then Some("손주들은 잘 크고 있나요? 보고 싶으시죠?")
    else if keyword == "친구" then Some("친구분들은 요즘 어떻게 지내세요?")
    else if keyword == "날씨" then Some("날씨가 많이 추워졌는데 괜찮으세요?")
    else None
  }

  function TopicQuestion(topic: string): string
  {
    topic + " 이야기 더 들려주세요"
  }

  function CalculatePriority(emotionStatus: string): int
  {
    if emotionStatus == "CONCERNED" then 10
    else if emotionStatus == "NEUTRAL" then 5
    else if emotionStatus == "POSITIVE" then 3
    else 1
  }

  function DetermineCategory(emotionStatus: string): string
  {
    if emotionStatus == "CONCERNED" then "정서적 지원"
    else if emotionStatus == "NEUTRAL" then "일상 대화"
    else if emotionStatus == "POSITIVE" then "긍정 강화"
    else "일반"
  }

  /** Priority and category follow the same four-way split, and the priority tells the category. */
  lemma PriorityDeterminesCategory(s1: string, s2: string)
    ensures CalculatePriority(s1) in {10, 5, 3, 1}
    ensures CalculatePriority(s1) == 10 <==> s1 == ConcernedStatus
    ensures CalculatePriority(s1) == CalculatePriority(s2) <==> DetermineCategory(s1) == DetermineCategory(s2)
  {
    assert |"정서적 지원"| == 6 && |"일상 대화"| == 5 && |"긍정 강화"| == 5 && |"일반"| == 2;
    assert "일상 대화"[0] != "긍정 강화"[0];
  }

  /** The questions of the mapped keywords, in keyword order. */
  function KeywordQuestions(keywords: seq<string>): seq<string>
  {
    if keywords == [] then []
    else
      var q := QuestionFor(keywords[|keywords| - 1]);
      KeywordQuestions(keywords[..|keywords| - 1]) + (if q.Some? then [q.value] else [])
  }

  /** The mapped keywords themselves, in order and with repetitions: the reply's topics. */
  function MappedTopics(keywords: seq<string>): seq<string>
  {
    if keywords == [] then []
    else
      var k := keywords[|keywords| - 1];
      MappedTopics(keywords[..|keywords| - 1]) + (if IsQuestionKeyword(k) then [k] else [])
  }

  /** Topics are exactly the mapped keywords, in order and with repetitions. */
  lemma {:induction false} MappedTopicsSpec(keywords: seq<string>)
    ensures MappedTopics(keywords) == Filter(keywords, IsQuestionKeyword)
    decreases |keywords|
  {
    if keywords != [] {
      var init, k := keywords[..|keywords| - 1], keywords[|keywords| - 1];
      MappedTopicsSpec(init);
      assert keywords == init + [k];
      FilterAppend(init, [k], IsQuestionKeyword);
      assert Filter([k], IsQuestionKeyword) == (if IsQuestionKeyword(k) then [k] else []) by {
        assert [k][1..] == [];
      }
    }
  }

  /** One topic per question produced. */
  lemma {:induction false} MappedTopicsCount(keywords: seq<string>)
    ensures |MappedTopics(keywords)| == |KeywordQuestions(keywords)|
    decreases |keywords|
  {
    if keywords != [] {
      var init, k := keywords[..|keywords| - 1], keywords[|keywords| - 1];
      MappedTopicsCount(init);
      assert |MappedTopics(keywords)| == |MappedTopics(init)| + (if IsQuestionKeyword(k) then 1 else 0);
      assert |KeywordQuestions(keywords)| == |KeywordQuestions(init)| + (if QuestionFor(k).Some? then 1 else 0);
    }
  }

  /** Every question offered before de-duplication, in order: concern, keyword, topic questions. */
  function CandidateQuestions(keywords: seq<string>, topics: seq<string>, emotionStatus: string): seq<string>
  {
    (if emotionStatus == ConcernedStatus then [ConcernQuestion, SupportQuestion] else [])
    + KeywordQuestions(keywords) + Map(topics, TopicQuestion)
  }

  datatype ConversationTips = ConversationTips(
    questions: seq<string>,
    topics: seq<string>,
    priority: int,
    category: string)

  /** The keyword loop: each mapped keyword adds its question and becomes a topic. */
  method AddKeywordQuestions(questions: seq<string>, keywords: seq<string>)
    returns (questions': seq<string>, mapped: seq<string>)
    ensures questions' == questions + KeywordQuestions(keywords)
    ensures mapped == MappedTopics(keywords)
  {
    questions', mapped := questions, [];
    var i := 0;
    while i < |keywords|
      invariant 0 <= i <= |keywords|
      invariant questions' == questions + KeywordQuestions(keywords[..i])
      invariant mapped == MappedTopics(keywords[..i])
    {
      assert keywords[..i + 1][..i] == keywords[..i];
      var question := QuestionFor(keywords[i]);
      if question.Some? {
        questions' := questions' + [question.value];
        mapped := mapped + [keywords[i]];
      }
      i := i + 1;
    }
    assert keywords[..i] == keywords;
  }

  /** The topic loop: one "... 이야기 더 들려주세요" question per recent topic. */
  method AddTopicQuestions(questions: seq<string>, topics: seq<string>) returns (questions': seq<string>)
    ensures questions' == questions + Map(topics, TopicQuestion)
  {
    questions' := questions;
    var j := 0;
    while j < |topics|
      invariant 0 <= j <= |topics|
      invariant questions' == questions + Map(topics[..j], TopicQuestion)
    {
      assert Map(topics[..j + 1], TopicQuestion) == Map(topics[..j], TopicQuestion) + [TopicQuestion(topics[j])];
      questions' := questions' + [TopicQuestion(topics[j])];
      j := j + 1;
    }
    assert topics[..j] == topics;
  }

  method GenerateConversationTips(keywords: seq<string>, topics: seq<string>, emotionStatus: string)
    returns (r: ConversationTips)
    ensures r.questions == Take(Distinct(CandidateQuestions(keywords, topics, emotionStatus)), MaxQuestions)
    ensures r.topics == MappedTopics(keywords)
    ensures r.priority == CalculatePriority(emotionStatus)
    ensures r.category == DetermineCategory(emotionStatus)
  {
    var questions: seq<string> := [];
    var priority := CalculatePriority(emotionStatus);
    if emotionStatus == ConcernedStatus {
      questions := questions + [ConcernQuestion, SupportQuestion];
      priority := 10;
    }
    var mapped;
    questions, mapped := AddKeywordQuestions(questions, keywords);
    questions := AddTopicQuestions(questions, topics);
    assert questions == CandidateQuestions(keywords, topics, emotionStatus);
    r := ConversationTips(Take(Distinct(questions), MaxQuestions), mapped, priority, DetermineCategory(emotionStatus));
  }

  /** The questions are distinct, at most five, and each one was offered. */
  lemma TipQuestionsShape(keywords: seq<string>, topics: seq<string>, emotionStatus: string)
    ensures var qs := Take(Distinct(CandidateQuestions(keywords, topics, emotionStatus)), MaxQuestions);
      && |qs| <= MaxQuestions
      && NoDuplicates(qs)
      && forall i | 0 <= i < |qs| :: qs[i] in CandidateQuestions(keywords, topics, emotionStatus)
  {
    var d := Distinct(CandidateQuestions(keywords, topics, emotionStatus));
    var qs := Take(d, MaxQuestions);
    assert forall i | 0 <= i < |qs| :: qs[i] == d[i];
  }

  /** A CONCERNED status puts the two concern questions first. */
  lemma ConcernQuestionsFirst(keywords: seq<string>, topics: seq<string>)
    ensures var qs := Take(Distinct(CandidateQuestions(keywords, topics, ConcernedStatus)), MaxQuestions);
      |qs| >= 2 && qs[0] == ConcernQuestion && qs[1] == SupportQuestion
  {
    var head := [ConcernQuestion, SupportQuestion];
    var rest := KeywordQuestions(keywords) + Map(topics, TopicQuestion);
    assert CandidateQuestions(keywords, topics, ConcernedStatus) == head + rest;
    DistinctPrefix(head, rest);
    assert head[..1] == [ConcernQuestion] && [ConcernQuestion][..0] == [];
    assert ConcernQuestion[0] != SupportQuestion[0];
    assert Distinct(head) == head;
  }

  // ------------------------------------------------------------- products

  datatype ProductSuggestion = ProductSuggestion(
    name: string,
    detectedNeed: string,
    suggestion: string,
    link: string,
    priority: int,
    category: string)

  predicate MentionsJoints(lower: string)
  {
    Contains(lower, "무릎") || Contains(lower, "관절")
  }

  predicate MentionsSleep(lower: string)
  {
    Contains(lower, "잠") || Contains(lower, "수면")
  }

  predicate MentionsMeals(lower: string)
  {
    Contains(lower, "밥") || Contains(lower, "식사")
  }

  /**
   * At most one suggestion per need, from the first rule that matches
   * the lower-cased need: joints (10), then sleep (9), then meals (8).
   */
  function MatchProductToNeed(need: string): (r: Option<ProductSuggestion>)
    ensures var lower := ToLower(need);
      && (r.None? <==> !MentionsJoints(lower) && !MentionsSleep(lower) && !MentionsMeals(lower))
      && (r.Some? ==> r.value.detectedNeed == need)
      && (r.Some? && r.value.priority == 10 <==> MentionsJoints(lower))
      && (r.Some? && r.value.priority == 9 <==> !MentionsJoints(lower) && MentionsSleep(lower))
      && (r.Some? && r.value.priority == 8 <==> !MentionsJoints(lower) && !MentionsSleep(lower) && MentionsMeals(lower))
  {
    var lower := ToLower(need);
    if MentionsJoints(lower) then
      Some(ProductSuggestion("관절 건강 제품", need, "MSM 관절 영양제",
        "https://shopping.example.com/joint-supplement", 10, "건강"))
    else if MentionsSleep(lower) then
      Some(ProductSuggestion("숙면 유도 아이템", need, "라벤더 아로마 세트",
        "https://shopping.example.com/sleep-aid", 9, "웰빙"))
    else if MentionsMeals(lower) then
      Some(ProductSuggestion("식욕 증진 보양식", need, "한방 보양식 세트",
        "https://shopping.example.com/health-food", 8, "식품"))
    else None
  }

  /** The product for an exact keyword: hiking (7), cooking (6), books (5). */
  function MatchProductToKeyword(keyword: string): (r: Option<ProductSuggestion>)
    ensures r.Some? <==> keyword in {"등산", "요리", "책"}
    ensures r.Some? ==> 5 <= r.value.priority <= 7
  {
    if keyword == "등산" then
      Some(ProductSuggestion("등산용품", "등산 관련 대화", "기능성 등산화",
        "https://shopping.example.com/hiking-shoes", 7, "레저"))
    else if keyword == "요리" then
      Some(ProductSuggestion("주방용품", "요리 관련 대화", "실버세대용 주방기구",
        "https://shopping.example.com/kitchen", 6, "생활"))
    else if keyword == "책" then
      Some(ProductSuggestion("독서용품", "독서 관련 대화", "큰 활자 도서 추천",
        "https://shopping.example.com/books", 5, "문화"))
    else None
  }

  /** The need matches, in need order. */
  function NeedSuggestions(needs: seq<string>): (r: seq<ProductSuggestion>)
    ensures forall i | 0 <= i < |r| :: r[i].priority >= 8
  {
    if needs == [] then []
    else
      var m := MatchProductToNeed(needs[|needs| - 1]);
      NeedSuggestions(needs[..|needs| - 1]) + (if m.Some? then [m.value] else [])
  }

  /** `base` followed by the keyword matches not already present, in keyword order. */
  function WithKeywordSuggestions(base: seq<ProductSuggestion>, keywords: seq<string>): seq<ProductSuggestion>
  {
    if keywords == [] then base
    else
      var acc := WithKeywordSuggestions(base, keywords[..|keywords| - 1]);
      var m := MatchProductToKeyword(keywords[|keywords| - 1]);
      if m.Some? && m.value !in acc then acc + [m.value] else acc
  }

  /** Adding keyword matches extends the list, never repeats one, and keeps every match. */
  lemma {:induction false} KeywordSuggestionsSpec(base: seq<ProductSuggestion>, keywords: seq<string>)
    ensures base <= WithKeywordSuggestions(base, keywords)
    ensures NoDuplicates(base) ==> NoDuplicates(WithKeywordSuggestions(base, keywords))
    ensures forall i | 0 <= i < |keywords| && MatchProductToKeyword(keywords[i]).Some? ::
      MatchProductToKeyword(keywords[i]).value in WithKeywordSuggestions(base, keywords)
    decreases |keywords|
  {
    if keywords != [] {
      var init := keywords[..|keywords| - 1];
      KeywordSuggestionsSpec(base, init);
      forall i | 0 <= i < |keywords| - 1 ensures keywords[i] == init[i] {}
    }
  }

  /** The suggestions before sorting: need matches, then new keyword matches. */
  function CandidateProducts(needs: seq<string>, keywords: seq<string>): seq<ProductSuggestion>
  {
    WithKeywordSuggestions(NeedSuggestions(needs), keywords)
  }

  function ByPriority(p: ProductSuggestion): Rank
  {
    Desc(p.priority)
  }

  const MaxProducts: nat := 5

  /** The first five candidates by descending priority, equal priorities in candidate order. */
  method RecommendProducts(needs: seq<string>, keywords: seq<string>) returns (r: seq<ProductSuggestion>)
    ensures r == Take(SortBy(CandidateProducts(needs, keywords), ByPriority), MaxProducts)
    ensures |r| <= MaxProducts
    ensures forall i, j | 0 <= i < j < |r| :: r[i].priority >= r[j].priority
  {
    var suggestions: seq<ProductSuggestion> := [];
    var i := 0;
    while i < |needs|
      invariant 0 <= i <= |needs|
      invariant suggestions == NeedSuggestions(needs[..i])
    {
      assert needs[..i + 1][..i] == needs[..i];
      var m := MatchProductToNeed(needs[i]);
      if m.Some? {
        suggestions := suggestions + [m.value];
      }
      i := i + 1;
    }
    assert needs[..i] == needs;
    ghost var base := suggestions;
    var j := 0;
    while j < |keywords|
      invariant 0 <= j <= |keywords|
      invariant suggestions == WithKeywordSuggestions(base, keywords[..j])
    {
      assert keywords[..j + 1][..j] == keywords[..j];
      var m := MatchProductToKeyword(keywords[j]);
      if m.Some? && m.value !in suggestions {
        suggestions := suggestions + [m.value];
      }
      j := j + 1;
    }
    assert keywords[..j] == keywords;
    var sorted := SortBy(suggestions, ByPriority);
    SortBySorted(suggestions, ByPriority);
    r := Take(sorted, MaxProducts);
    forall a, b | 0 <= a < b < |r| ensures r[a].priority >= r[b].priority {
      assert r[a] == sorted[a] && r[b] == sorted[b];
      assert RankLe(ByPriority(sorted[a]), ByPriority(sorted[b]));
    }
  }

  /**
   * Stability: for every priority, the kept suggestions of that priority
   * are the first ones of that priority among the candidates, in order.
   */
  lemma RecommendationsStable(needs: seq<string>, keywords: seq<string>, priority: int)
    ensures var c := CandidateProducts(needs, keywords);
      var r := Take(SortBy(c, ByPriority), MaxProducts);
      WithKey(r, ByPriority, Desc(priority)) <= WithKey(c, ByPriority, Desc(priority))
  {
    var c := CandidateProducts(needs, keywords);
    var sorted := SortBy(c, ByPriority);
    SortByStable(c, ByPriority, Desc(priority));
    WithKeyOfPrefix(Take(sorted, MaxProducts), sorted, ByPriority, Desc(priority));
  }
}
