/**
 * The three insight entities written by the daily analysis and their
 * repositories (the insight/domain and insight/repository packages).
 *
 * Insights have no mutators once built, so each is a value. The owning
 * family is kept as its id; times are seconds.
 */
module HealthInsights {
  import opened Common

  const HighRiskSeverity: int := 7

  datatype HealthInsight = HealthInsight(familyId: int, keywords: string, severity: int, summary: string,
                                         recommendation: Option<string>, analyzedAt: int)
  {
    function IsHighRisk(): (b: bool)
      ensures b <==> severity >= HighRiskSeverity
    {
      severity >= 7
    }
  }

  /**
   * The builder: every field is stored as given (no range check on the
   * severity), and a missing analysis time becomes the current time.
   */
  function Build(familyId: int, keywords: string, severity: int, summary: string,
                 recommendation: Option<string>, analyzedAt: Option<int>, now: int): (h: HealthInsight)
    ensures h.familyId == familyId && h.keywords == keywords && h.severity == severity
    ensures h.summary == summary && h.recommendation == recommendation
    ensures analyzedAt.Some? ==> h.analyzedAt == analyzedAt.value
    ensures analyzedAt.None? ==> h.analyzedAt == now
  {
    HealthInsight(familyId, keywords, severity, summary, recommendation,
                  if analyzedAt.Some? then analyzedAt.value else now)
  }

  function AnalyzedAt(h: HealthInsight): int
  {
    h.analyzedAt
  }

  function FindByFamilyOrderByAnalyzedAtDesc(table: seq<HealthInsight>, familyId: int): (r: seq<HealthInsight>)
    ensures forall i | 0 <= i < |r| :: r[i] in table && r[i].familyId == familyId
    ensures forall i | 0 <= i < |table| :: table[i].familyId == familyId ==> table[i] in r
    ensures NonIncreasing(r, AnalyzedAt)
    ensures multiset(r) == multiset(Filter(table, (h: HealthInsight) => h.familyId == familyId))
  {
    QueryDesc(table, (h: HealthInsight) => h.familyId == familyId, AnalyzedAt)
  }

  /** start <= analyzedAt <= end (SQL BETWEEN), newest first. */
  function FindByFamilyAndAnalyzedAtBetween(table: seq<HealthInsight>, familyId: int, start: int, end: int): (r: seq<HealthInsight>)
    ensures forall i | 0 <= i < |r| :: r[i] in table && r[i].familyId == familyId && start <= r[i].analyzedAt <= end
    ensures forall i | 0 <= i < |table| :: table[i].familyId == familyId && start <= table[i].analyzedAt <= end ==> table[i] in r
    ensures NonIncreasing(r, AnalyzedAt)
    ensures r == [] <==> forall i | 0 <= i < |table| :: !(table[i].familyId == familyId && start <= table[i].analyzedAt <= end)
    ensures multiset(r) == multiset(Filter(table, (h: HealthInsight) => h.familyId == familyId && start <= h.analyzedAt <= end))
  {
    QueryDesc(table, (h: HealthInsight) => h.familyId == familyId && start <= h.analyzedAt <= end, AnalyzedAt)
  }

  function FindHighRiskByFamily(table: seq<HealthInsight>, familyId: int): (r: seq<HealthInsight>)
    ensures forall i | 0 <= i < |r| :: r[i] in table && r[i].familyId == familyId && r[i].IsHighRisk()
    ensures forall i | 0 <= i < |table| :: table[i].familyId == familyId && table[i].IsHighRisk() ==> table[i] in r
    ensures NonIncreasing(r, AnalyzedAt)
    ensures multiset(r) == multiset(Filter(table, (h: HealthInsight) => h.familyId == familyId && h.severity >= 7))
  {
    QueryDesc(table, (h: HealthInsight) => h.familyId == familyId && h.severity >= 7, AnalyzedAt)
  }

  function FindRecentByFamilyId(table: seq<HealthInsight>, familyId: int, since: int): (r: seq<HealthInsight>)
    ensures forall i | 0 <= i < |r| :: r[i] in table && r[i].familyId == familyId && r[i].analyzedAt >= since
    ensures forall i | 0 <= i < |table| :: table[i].familyId == familyId && table[i].analyzedAt >= since ==> table[i] in r
    ensures NonIncreasing(r, AnalyzedAt)
    ensures multiset(r) == multiset(Filter(table, (h: HealthInsight) => h.familyId == familyId && h.analyzedAt >= since))
  {
    QueryDesc(table, (h: HealthInsight) => h.familyId == familyId && h.analyzedAt >= since, AnalyzedAt)
  }
}

module EmotionInsights {
  import opened Common

  const NegativeBelow: int := -3
  const HighRiskScore: int := -7
  const Depressed: string := "우울"
  const Lonely: string := "외로움"

  datatype EmotionInsight = EmotionInsight(familyId: int, emotionType: string, emotionScore: int, description: string,
                                           conversationTips: Option<string>, analyzedAt: int)
  {
    function IsNegative(): (b: bool)
      ensures b <==> emotionScore < NegativeBelow
    {
      emotionScore < -3
    }

    /** A very low score, or a type naming depression or loneliness. */
    function IsHighRisk(): (b: bool)
      ensures b <==> emotionScore <= HighRiskScore || Contains(emotionType, Depressed) || Contains(emotionType, Lonely)
    {
      emotionScore <= -7 || Contains(emotionType, "우울") || Contains(emotionType, "외로움")
    }
  }

  function Build(familyId: int, emotionType: string, emotionScore: int, description: string,
                 conversationTips: Option<string>, analyzedAt: Option<int>, now: int): (e: EmotionInsight)
    ensures e.familyId == familyId && e.emotionType == emotionType && e.emotionScore == emotionScore
    ensures e.description == description && e.conversationTips == conversationTips
    ensures analyzedAt.Some? ==> e.analyzedAt == analyzedAt.value
    ensures analyzedAt.None? ==> e.analyzedAt == now
  {
    EmotionInsight(familyId, emotionType, emotionScore, description, conversationTips,
                   if analyzedAt.Some? then analyzedAt.value else now)
  }

  /**
   * How the two classifications relate: a score of -7 or less is both;
   * a score from -6 to -4 with neither word is negative only; a type
   * naming depression or loneliness with a score above -4 is high-risk only.
   */
  lemma RiskAndNegativity(e: EmotionInsight)
    ensures e.emotionScore <= HighRiskScore ==> e.IsNegative() && e.IsHighRisk()
    ensures -6 <= e.emotionScore <= -4 && !Contains(e.emotionType, Depressed) && !Contains(e.emotionType, Lonely)
            ==> e.IsNegative() && !e.IsHighRisk()
    ensures e.emotionScore >= NegativeBelow && (Contains(e.emotionType, Depressed) || Contains(e.emotionType, Lonely))
            ==> !e.IsNegative() && e.IsHighRisk()
    ensures e.IsNegative() && !e.IsHighRisk() ==> -6 <= e.emotionScore <= -4
  {
  }

  function AnalyzedAt(e: EmotionInsight): int
  {
    e.analyzedAt
  }

  function FindByFamilyOrderByAnalyzedAtDesc(table: seq<EmotionInsight>, familyId: int): (r: seq<EmotionInsight>)
    ensures forall i | 0 <= i < |r| :: r[i] in table && r[i].familyId == familyId
    ensures forall i | 0 <= i < |table| :: table[i].familyId == familyId ==> table[i] in r
    ensures NonIncreasing(r, AnalyzedAt)
    ensures multiset(r) == multiset(Filter(table, (e: EmotionInsight) => e.familyId == familyId))
  {
    QueryDesc(table, (e: EmotionInsight) => e.familyId == familyId, AnalyzedAt)
  }

  function FindByFamilyAndAnalyzedAtBetween(table: seq<EmotionInsight>, familyId: int, start: int, end: int): (r: seq<EmotionInsight>)
    ensures forall i | 0 <= i < |r| :: r[i] in table && r[i].familyId == familyId && start <= r[i].analyzedAt <= end
    ensures forall i | 0 <= i < |table| :: table[i].familyId == familyId && start <= table[i].analyzedAt <= end ==> table[i] in r
    ensures NonIncreasing(r, AnalyzedAt)
    ensures r == [] <==> forall i | 0 <= i < |table| :: !(table[i].familyId == familyId && start <= table[i].analyzedAt <= end)
    ensures multiset(r) == multiset(Filter(table, (e: EmotionInsight) => e.familyId == familyId && start <= e.analyzedAt <= end))
  {
    QueryDesc(table, (e: EmotionInsight) => e.familyId == familyId && start <= e.analyzedAt <= end, AnalyzedAt)
  }

  function FindNegativeByFamily(table: seq<EmotionInsight>, familyId: int): (r: seq<EmotionInsight>)
    ensures forall i | 0 <= i < |r| :: r[i] in table && r[i].familyId == familyId && r[i].IsNegative()
    ensures forall i | 0 <= i < |table| :: table[i].familyId == familyId && table[i].IsNegative() ==> table[i] in r
    ensures NonIncreasing(r, AnalyzedAt)
    ensures multiset(r) == multiset(Filter(table, (e: EmotionInsight) => e.familyId == familyId && e.emotionScore < -3))
  {
    QueryDesc(table, (e: EmotionInsight) => e.familyId == familyId && e.emotionScore < -3, AnalyzedAt)
  }

  /** LIKE '%word%' is substring containment. */
  function FindHighRiskByFamily(table: seq<EmotionInsight>, familyId: int): (r: seq<EmotionInsight>)
    ensures forall i | 0 <= i < |r| :: r[i] in table && r[i].familyId == familyId && r[i].IsHighRisk()
    ensures forall i | 0 <= i < |table| :: table[i].familyId == familyId && table[i].IsHighRisk() ==> table[i] in r
    ensures NonIncreasing(r, AnalyzedAt)
    ensures multiset(r) == multiset(Filter(table, (e: EmotionInsight) => e.familyId == familyId && (e.emotionScore <= -7 || Contains(e.emotionType, "우울") || Contains(e.emotionType, "외로움"))))
  {
    QueryDesc(table, (e: EmotionInsight) => e.familyId == familyId
                                           && (e.emotionScore <= -7 || Contains(e.emotionType, "우울") || Contains(e.emotionType, "외로움")),
              AnalyzedAt)
  }

  function FindRecentByFamilyId(table: seq<EmotionInsight>, familyId: int, since: int): (r: seq<EmotionInsight>)
    ensures forall i | 0 <= i < |r| :: r[i] in table && r[i].familyId == familyId && r[i].analyzedAt >= since
    ensures forall i | 0 <= i < |table| :: table[i].familyId == familyId && table[i].analyzedAt >= since ==> table[i] in r
    ensures NonIncreasing(r, AnalyzedAt)
    ensures multiset(r) == multiset(Filter(table, (e: EmotionInsight) => e.familyId == familyId && e.analyzedAt >= since))
  {
    QueryDesc(table, (e: EmotionInsight) => e.familyId == familyId && e.analyzedAt >= since, AnalyzedAt)
  }
}

module NeedsInsights {
  import opened Common

  const HighPriority: int := 7

  datatype NeedsInsight = NeedsInsight(familyId: int, category: string, items: string, priority: int, context: string,
                                       recommendations: Option<string>, analyzedAt: int)
  {
    function IsHighPriority(): (b: bool)
      ensures b <==> priority >= HighPriority
    {
      priority >= 7
    }
  }

  function Build(familyId: int, category: string, items: string, priority: int, context: string,
                 recommendations: Option<string>, analyzedAt: Option<int>, now: int): (n: NeedsInsight)
    ensures n.familyId == familyId && n.category == category && n.items == items && n.priority == priority
    ensures n.context == context && n.recommendations == recommendations
    ensures analyzedAt.Some? ==> n.analyzedAt == analyzedAt.value
    ensures analyzedAt.None? ==> n.analyzedAt == now
  {
    NeedsInsight(familyId, category, items, priority, context, recommendations,
                 if analyzedAt.Some? then analyzedAt.value else now)
  }

  function AnalyzedAt(n: NeedsInsight): int
  {
    n.analyzedAt
  }

  /** ORDER BY priority DESC, analyzedAt DESC. */
  function ByPriorityThenNewest(n: NeedsInsight): Rank
  {
    Rank(-n.priority, -n.analyzedAt)
  }

  ghost predicate PriorityThenNewest(r: seq<NeedsInsight>)
  {
    forall i, j | 0 <= i < j < |r| ::
      r[i].priority > r[j].priority || (r[i].priority == r[j].priority && r[i].analyzedAt >= r[j].analyzedAt)
  }

  function FindByFamilyOrderByAnalyzedAtDesc(table: seq<NeedsInsight>, familyId: int): (r: seq<NeedsInsight>)
    ensures forall i | 0 <= i < |r| :: r[i] in table && r[i].familyId == familyId
    ensures forall i | 0 <= i < |table| :: table[i].familyId == familyId ==> table[i] in r
    ensures NonIncreasing(r, AnalyzedAt)
    ensures multiset(r) == multiset(Filter(table, (n: NeedsInsight) => n.familyId == familyId))
  {
    QueryDesc(table, (n: NeedsInsight) => n.familyId == familyId, AnalyzedAt)
  }

  function FindByFamilyAndAnalyzedAtBetween(table: seq<NeedsInsight>, familyId: int, start: int, end: int): (r: seq<NeedsInsight>)
    ensures forall i | 0 <= i < |r| :: r[i] in table && r[i].familyId == familyId && start <= r[i].analyzedAt <= end
    ensures forall i | 0 <= i < |table| :: table[i].familyId == familyId && start <= table[i].analyzedAt <= end ==> table[i] in r
    ensures NonIncreasing(r, AnalyzedAt)
    ensures r == [] <==> forall i | 0 <= i < |table| :: !(table[i].familyId == familyId && start <= table[i].analyzedAt <= end)
    ensures multiset(r) == multiset(Filter(table, (n: NeedsInsight) => n.familyId == familyId && start <= n.analyzedAt <= end))
  {
    QueryDesc(table, (n: NeedsInsight) => n.familyId == familyId && start <= n.analyzedAt <= end, AnalyzedAt)
  }

  function FindHighPriorityByFamily(table: seq<NeedsInsight>, familyId: int): (r: seq<NeedsInsight>)
    ensures forall i | 0 <= i < |r| :: r[i] in table && r[i].familyId == familyId && r[i].IsHighPriority()
    ensures forall i | 0 <= i < |table| :: table[i].familyId == familyId && table[i].IsHighPriority() ==> table[i] in r
    ensures PriorityThenNewest(r)
    ensures multiset(r) == multiset(Filter(table, (n: NeedsInsight) => n.familyId == familyId && n.priority >= 7))
  {
    var r := Query(table, (n: NeedsInsight) => n.familyId == familyId && n.priority >= 7, ByPriorityThenNewest);
    forall i, j | 0 <= i < j < |r|
      ensures r[i].priority > r[j].priority || (r[i].priority == r[j].priority && r[i].analyzedAt >= r[j].analyzedAt)
    {
      assert RankLe(ByPriorityThenNewest(r[i]), ByPriorityThenNewest(r[j]));
    }
    r
  }

  function FindRecentByFamilyId(table: seq<NeedsInsight>, familyId: int, since: int): (r: seq<NeedsInsight>)
    ensures forall i | 0 <= i < |r| :: r[i] in table && r[i].familyId == familyId && r[i].analyzedAt >= since
    ensures forall i | 0 <= i < |table| :: table[i].familyId == familyId && table[i].analyzedAt >= since ==> table[i] in r
    ensures NonIncreasing(r, AnalyzedAt)
    ensures multiset(r) == multiset(Filter(table, (n: NeedsInsight) => n.familyId == familyId && n.analyzedAt >= since))
  {
    QueryDesc(table, (n: NeedsInsight) => n.familyId == familyId && n.analyzedAt >= since, AnalyzedAt)
  }

  /** Exact category equality, in table order (no ORDER BY). */
  function FindByFamilyAndCategory(table: seq<NeedsInsight>, familyId: int, category: string): (r: seq<NeedsInsight>)
    ensures forall i | 0 <= i < |r| :: r[i] in table && r[i].familyId == familyId && r[i].category == category
    ensures forall i | 0 <= i < |table| :: table[i].familyId == familyId && table[i].category == category ==> table[i] in r
    ensures r == Filter(table, (n: NeedsInsight) => n.familyId == familyId && n.category == category)
  {
    Filter(table, (n: NeedsInsight) => n.familyId == familyId && n.category == category)
  }
}
