/**
 * Weekly report generation and lookup (report/service/ReportService.java).
 *
 * The report covers the Monday-to-Sunday week before the current one. It
 * is refused when the family already has a report for that exact period,
 * or when the family has no insight of any kind in it. The overall
 * summary and the tips come from the AI port, passed in as functions of
 * the three section summaries (None when the call or the parse fails).
 */
module Reporting {
  import opened Common
  import opened WeeklyReports
  import H = HealthInsights
  import E = EmotionInsights
  import N = NeedsInsights

  // ---------------------------------------------------------------- period

  /** The last day of the report week: today minus its ISO weekday. */
  function PeriodEndDay(now: int): (d: int)
    ensures DayOfWeek(d) == Sunday
    ensures DayOf(now) - 7 <= d < DayOf(now)
  {
    var today := DayOf(now);
    var w := DayOfWeek(today);
    assert (today - w + 3) % 7 == 6 by {
      assert today + 3 == ((today + 3) / 7) * 7 + (w - 1);
      assert today - w + 3 == ((today + 3) / 7) * 7 - 1;
    }
    today - w
  }

  /**
   * periodEnd: that day at 23:59:59. Only hour, minute and second are
   * set, so the nanoseconds of now (`nanos`) are kept.
   */
  function PeriodEnd(now: int, nanos: int): Instant
  {
    Instant(PeriodEndDay(now) * SecondsPerDay + SecondsPerDay - 1, nanos)
  }

  /** periodStart: six days earlier at 00:00:00, again with the nanoseconds of now. */
  function PeriodStart(now: int, nanos: int): Instant
  {
    Instant((PeriodEndDay(now) - 6) * SecondsPerDay, nanos)
  }

  /**
   * The period runs from a Monday at midnight to the following Sunday at
   * 23:59:59, and that Sunday is the latest one strictly before today;
   * both bounds carry the sub-second part of now.
   */
  lemma ReportPeriod(now: int, nanos: int)
    requires 0 <= nanos < NanosPerSecond
    ensures ValidInstant(PeriodStart(now, nanos)) && ValidInstant(PeriodEnd(now, nanos))
    ensures PeriodStart(now, nanos).nanos == nanos && PeriodEnd(now, nanos).nanos == nanos
    ensures var start := PeriodStart(now, nanos).seconds;
            DayOfWeek(DayOf(start)) == Monday && start % SecondsPerDay == 0
    ensures var end := PeriodEnd(now, nanos).seconds;
            DayOfWeek(DayOf(end)) == Sunday && end % SecondsPerDay == SecondsPerDay - 1
    ensures DayOf(PeriodEnd(now, nanos).seconds) - DayOf(PeriodStart(now, nanos).seconds) == 6
    ensures PeriodEnd(now, nanos).seconds < DayOf(now) * SecondsPerDay <= now
    ensures DayOf(now) - DayOf(PeriodEnd(now, nanos).seconds) <= 7
  {
    var d := PeriodEndDay(now);
    DayBounds(d);
    DayBounds(d - 6);
    WeekOfSunday(d);
  }

  /** Six days before a Sunday is a Monday. */
  lemma WeekOfSunday(d: int)
    requires DayOfWeek(d) == Sunday
    ensures DayOfWeek(d - 6) == Monday
  {
    assert d - 6 + 3 == ((d + 3) / 7) * 7;
  }

  /** The first and the last second of a day belong to that day. */
  lemma DayBounds(d: int)
    ensures DayOf(d * SecondsPerDay) == d && (d * SecondsPerDay) % SecondsPerDay == 0
    ensures DayOf(d * SecondsPerDay + SecondsPerDay - 1) == d
    ensures (d * SecondsPerDay + SecondsPerDay - 1) % SecondsPerDay == SecondsPerDay - 1
  {
    var e := DayOf(d * SecondsPerDay + SecondsPerDay - 1);
    assert e * SecondsPerDay <= d * SecondsPerDay + SecondsPerDay - 1 < (e + 1) * SecondsPerDay;
    assert e == d;
  }

  /**
   * Two calls in the same Monday-to-Sunday week whose clocks agree below
   * the second compute the same period.
   */
  lemma SameWeekSamePeriod(now1: int, nanos1: int, now2: int, nanos2: int)
    requires DayOf(now1) <= DayOf(now2)
    requires DayOfWeek(DayOf(now1)) + (DayOf(now2) - DayOf(now1)) <= 7
    requires nanos1 == nanos2
    ensures PeriodStart(now1, nanos1) == PeriodStart(now2, nanos2) && PeriodEnd(now1, nanos1) == PeriodEnd(now2, nanos2)
  {
    var a, b := DayOf(now1), DayOf(now2);
    assert (b + 3) % 7 == (a + 3) % 7 + (b - a) by {
      assert b + 3 == ((a + 3) / 7) * 7 + ((a + 3) % 7 + (b - a));
    }
  }

  // ------------------------------------------------------------- sections

  const NoHealthSummary: string := "이번 주 건강 관련 특이사항이 없었습니다."
  const NoEmotionSummary: string := "이번 주 감정 상태 분석 결과가 없습니다."
  const NoNeedsSummary: string := "이번 주 특별한 니즈가 파악되지 않았습니다."

  /** "• summary (심각도: n/10)" */
  function HealthBullet(h: H.HealthInsight): string
  {
    "• " + h.summary + " (심각도: " + IntToString(h.severity) + "/10)"
  }

  /** "• description (감정: type, 점수: n/10)" */
  function EmotionBullet(e: E.EmotionInsight): string
  {
    "• " + e.description + " (감정: " + e.emotionType + ", 점수: " + IntToString(e.emotionScore) + "/10)"
  }

  /** "• [category] context (우선순위: n/10)" */
  function NeedsBullet(n: N.NeedsInsight): string
  {
    "• [" + n.category + "] " + n.context + " (우선순위: " + IntToString(n.priority) + "/10)"
  }

  /**
   * A section summary: the fixed sentence when there are no bullets,
   * otherwise the bullets in order, one per line. A non-empty section
   * starts with its first bullet and contains every bullet.
   */
  function Section(bullets: seq<string>, none: string): (s: string)
    ensures bullets == [] ==> s == none
    ensures bullets != [] ==> bullets[0] <= s
    ensures forall i | 0 <= i < |bullets| :: Contains(s, bullets[i])
  {
    if bullets == [] then none
    else
      JoinStartsWithFirst(bullets, "\n");
      forall i | 0 <= i < |bullets| ensures Contains(Join(bullets, "\n"), bullets[i]) {
        JoinContains(bullets, "\n", i);
      }
      Join(bullets, "\n")
  }

  /** The fixed sentences start with a letter, never with a bullet, so the two cases are told apart. */
  lemma SectionsDistinguishEmpty(bullets: seq<string>, none: string)
    requires none == NoHealthSummary || none == NoEmotionSummary || none == NoNeedsSummary
    requires forall i | 0 <= i < |bullets| :: |bullets[i]| > 0 && bullets[i][0] == '•'
    ensures Section(bullets, none) == none <==> bullets == []
  {
    if bullets != [] {
      assert Section(bullets, none)[0] == '•';
    }
  }

  function HealthSummary(insights: seq<H.HealthInsight>): string
  {
    Section(Map(insights, HealthBullet), NoHealthSummary)
  }

  function EmotionSummary(insights: seq<E.EmotionInsight>): string
  {
    Section(Map(insights, EmotionBullet), NoEmotionSummary)
  }

  function NeedsSummary(insights: seq<N.NeedsInsight>): string
  {
    Section(Map(insights, NeedsBullet), NoNeedsSummary)
  }

  /** The three section summaries of the report week, and whether the week had no insight at all. */
  datatype Sections = Sections(health: string, emotion: string, needs: string, empty: bool)

  /** The first and the last whole second of the period: the BETWEEN bounds as whole-second times see them. */
  function FirstSecond(now: int, nanos: int): int
  {
    CeilSeconds(PeriodStart(now, nanos))
  }

  function LastSecond(now: int, nanos: int): int
  {
    PeriodEnd(now, nanos).seconds
  }

  /** A whole-second time lies BETWEEN periodStart AND periodEnd. */
  predicate InPeriod(t: int, now: int, nanos: int)
  {
    AtOrAfter(t, PeriodStart(now, nanos)) && AtOrBefore(t, PeriodEnd(now, nanos))
  }

  /**
   * The whole-second bounds select exactly the times in the period; with
   * a non-zero sub-second part the Monday midnight itself is outside it.
   */
  lemma SecondsBoundsExact(t: int, now: int, nanos: int)
    ensures InPeriod(t, now, nanos) <==> FirstSecond(now, nanos) <= t <= LastSecond(now, nanos)
    ensures nanos > 0 ==> !InPeriod(PeriodStart(now, nanos).seconds, now, nanos)
  {
    var c := FirstSecond(now, nanos);
    if t < c {
      assert !AtOrAfter(c - 1, PeriodStart(now, nanos));
    }
  }

  function WeekSections(health: seq<H.HealthInsight>, emotion: seq<E.EmotionInsight>, needs: seq<N.NeedsInsight>,
                        familyId: int, now: int, nanos: int): Sections
  {
    var start, end := FirstSecond(now, nanos), LastSecond(now, nanos);
    var hs := H.FindByFamilyAndAnalyzedAtBetween(health, familyId, start, end);
    var es := E.FindByFamilyAndAnalyzedAtBetween(emotion, familyId, start, end);
    var ns := N.FindByFamilyAndAnalyzedAtBetween(needs, familyId, start, end);
    Sections(HealthSummary(hs), EmotionSummary(es), NeedsSummary(ns), hs == [] && es == [] && ns == [])
  }

  /** The week counts as empty exactly when the family has no insight of any kind analysed in the period. */
  lemma WeekSectionsEmpty(health: seq<H.HealthInsight>, emotion: seq<E.EmotionInsight>, needs: seq<N.NeedsInsight>,
                          familyId: int, now: int, nanos: int)
    ensures WeekSections(health, emotion, needs, familyId, now, nanos).empty
            <==> (forall i | 0 <= i < |health| :: !(health[i].familyId == familyId && InPeriod(health[i].analyzedAt, now, nanos)))
                 && (forall i | 0 <= i < |emotion| :: !(emotion[i].familyId == familyId && InPeriod(emotion[i].analyzedAt, now, nanos)))
                 && (forall i | 0 <= i < |needs| :: !(needs[i].familyId == familyId && InPeriod(needs[i].analyzedAt, now, nanos)))
  {
    forall t ensures InPeriod(t, now, nanos) <==> FirstSecond(now, nanos) <= t <= LastSecond(now, nanos) {
      SecondsBoundsExact(t, now, nanos);
    }
  }

  /** An empty section gets its fixed sentence; a non-empty one starts with the bullet of its newest insight. */
  lemma WeekSectionsText(health: seq<H.HealthInsight>, emotion: seq<E.EmotionInsight>, needs: seq<N.NeedsInsight>,
                         familyId: int, now: int, nanos: int)
    ensures var s := WeekSections(health, emotion, needs, familyId, now, nanos);
            var hs := H.FindByFamilyAndAnalyzedAtBetween(health, familyId, FirstSecond(now, nanos), LastSecond(now, nanos));
            && (hs == [] ==> s.health == NoHealthSummary)
            && (hs != [] ==> HealthBullet(hs[0]) <= s.health)
            && (forall i | 0 <= i < |hs| :: Contains(s.health, HealthBullet(hs[i])))
  {
    var hs := H.FindByFamilyAndAnalyzedAtBetween(health, familyId, FirstSecond(now, nanos), LastSecond(now, nanos));
    var bullets := Map(hs, HealthBullet);
    assert forall i | 0 <= i < |hs| :: bullets[i] == HealthBullet(hs[i]);
  }

  // ------------------------------------------------------------------ tips

  /**
   * One tip as the reply's JSON gives it (the TipDto record): a field the
   * JSON leaves out is null.
   */
  datatype TipReply = TipReply(content: Option<string>, priority: Option<int>, category: Option<string>)

  const FallbackTip: TipReply := TipReply(Some("요즘 건강은 어떠세요? 불편한 곳은 없으신가요?"), Some(5), Some("건강 관심"))

  /**
   * The tips built for the report: the parsed tips in order, with no
   * count, range or null check, or the single fallback tip when the call
   * or the parse threw.
   */
  function GeneratedTips(reply: Option<seq<TipReply>>): (r: seq<TipReply>)
    ensures reply.Some? ==> r == reply.value
    ensures reply.None? ==> r == [FallbackTip] && r[0].priority == Some(5) && r[0].category == Some("건강 관심")
  {
    if reply.Some? then reply.value else [FallbackTip]
  }

  /**
   * The tips as the save writes them: content and priority are not-null
   * columns, so one tip without either makes the save throw (None);
   * otherwise every tip, in order, with its category possibly null.
   */
  function SavedTips(tips: seq<TipReply>): (r: Option<seq<TipValue>>)
    ensures r.None? <==> exists i | 0 <= i < |tips| :: tips[i].content.None? || tips[i].priority.None?
    ensures r.Some? ==> |r.value| == |tips|
    ensures r.Some? ==> forall i | 0 <= i < |tips| ::
              && tips[i].content.Some? && tips[i].priority.Some?
              && r.value[i] == TipValue(tips[i].content.value, tips[i].priority.value, tips[i].category)
  {
    if tips == [] then Some([])
    else if tips[0].content.None? || tips[0].priority.None? then None
    else
      match SavedTips(tips[1..])
      case None => None
      case Some(rest) => Some([TipValue(tips[0].content.value, tips[0].priority.value, tips[0].category)] + rest)
  }

  /** The fallback tip always saves: the failure path never fails the report. */
  lemma FallbackSaves()
    ensures SavedTips(GeneratedTips(None)) == Some([TipValue("요즘 건강은 어떠세요? 불편한 곳은 없으신가요?", 5, Some("건강 관심"))])
  {
    var tips := GeneratedTips(None);
    assert tips[1..] == [] && SavedTips(tips[1..]) == Some([]);
    var v := TipValue(FallbackTip.content.value, FallbackTip.priority.value, FallbackTip.category);
    assert SavedTips(tips) == Some([v] + []) && [v] + [] == [v];
  }

  /** The tips a generation saves for the week's sections, or None when the save would throw. */
  function WeekTips(tipsAi: (string, string, string) -> Option<seq<TipReply>>, s: Sections): Option<seq<TipValue>>
  {
    SavedTips(GeneratedTips(tipsAi(s.health, s.emotion, s.needs)))
  }

  // ---------------------------------------------------------------- guards

  /**
   * Why generation stops, in the order the checks are made: unknown
   * family, a report for the period already there, no insight in the
   * period, the overall-summary call failing, the save refusing a tip
   * without content or priority. None when a report is saved.
   */
  function GenerationFailure(known: bool, duplicate: bool, noInsights: bool, overall: Option<string>,
                             tips: Option<seq<TipValue>>): (f: Option<Failure>)
    ensures f == Some(IllegalArgument) <==> !known
    ensures f == Some(IllegalState) <==> known && (duplicate || noInsights)
    ensures f == Some(Runtime) <==> known && !duplicate && !noInsights && (overall.None? || tips.None?)
    ensures f.None? <==> known && !duplicate && !noInsights && overall.Some? && tips.Some?
  {
    if !known then Some(IllegalArgument)
    else if duplicate then Some(IllegalState)
    else if noInsights then Some(IllegalState)
    else if overall.None? then Some(Runtime)
    else if tips.None? then Some(Runtime)
    else None
  }

  // ------------------------------------------------------------ the service

  /** Creates one tip per value and attaches it to the report, in order. */
  method AttachTips(report: WeeklyReport, tips: seq<TipValue>)
    modifies report
    ensures TipValues(report.conversationTips) == TipValues(old(report.conversationTips)) + tips
    ensures old(report.conversationTips) <= report.conversationTips
    ensures forall k | |old(report.conversationTips)| <= k < |report.conversationTips| ::
              fresh(report.conversationTips[k]) && report.conversationTips[k].report == report
  {
    var i := 0;
    while i < |tips|
      invariant 0 <= i <= |tips|
      invariant old(report.conversationTips) <= report.conversationTips
      invariant |report.conversationTips| == |old(report.conversationTips)| + i
      invariant forall k | 0 <= k < i :: TipOf(report.conversationTips[|old(report.conversationTips)| + k]) == tips[k]
      invariant forall k | |old(report.conversationTips)| <= k < |report.conversationTips| ::
                  fresh(report.conversationTips[k]) && report.conversationTips[k].report == report
    {
      var tip := new ConversationTip(report, tips[i].content, tips[i].priority, tips[i].category);
      report.AddConversationTip(tip);
      i := i + 1;
    }
    assert TipValues(report.conversationTips) == TipValues(old(report.conversationTips)) + tips;
  }

  /**
   * The saved report holds the family, the period, the AI summary, the
   * three section summaries, the generation time and the tips, each tip
   * pointing back at it.
   */
  ghost predicate SavedAs(report: WeeklyReport, familyId: int, start: Instant, end: Instant, summary: string,
                          s: Sections, tips: seq<TipValue>, now: int)
    reads report, report.conversationTips
  {
    && report.familyId == familyId && report.periodStart == start && report.periodEnd == end
    && report.summary == summary && report.healthSummary == s.health && report.emotionSummary == s.emotion
    && report.needsSummary == s.needs && report.generatedAt == now
    && TipValues(report.conversationTips) == tips
    && forall k | 0 <= k < |report.conversationTips| :: report.conversationTips[k].report == report
  }

  class ReportService {
    var reports: seq<WeeklyReport>

    constructor ()
      ensures reports == []
    {
      reports := [];
    }

    /**
     * generateWeeklyReport: on success exactly one report is saved, for the
     * computed period, with the section summaries, the AI summary and the
     * tips attached; every failure leaves the reports unchanged.
     */
    method GenerateWeeklyReport(families: set<int>, familyId: int, health: seq<H.HealthInsight>,
                                emotion: seq<E.EmotionInsight>, needs: seq<N.NeedsInsight>,
                                summaryAi: (string, string, string) -> Option<string>,
                                tipsAi: (string, string, string) -> Option<seq<TipReply>>, now: int, nanos: int)
      returns (r: Result<WeeklyReport>)
      modifies this
      ensures var s := WeekSections(health, emotion, needs, familyId, now, nanos);
              var f := GenerationFailure(familyId in families,
                                         ExistsByFamilyAndPeriod(old(reports), familyId, PeriodStart(now, nanos), PeriodEnd(now, nanos)),
                                         s.empty, summaryAi(s.health, s.emotion, s.needs), WeekTips(tipsAi, s));
              && (f.Some? ==> r == Failure(f.value) && reports == old(reports))
              && (f.None? ==> r.Success? && reports == old(reports) + [r.value] && fresh(r.value)
                              && SavedAs(r.value, familyId, PeriodStart(now, nanos), PeriodEnd(now, nanos),
                                         summaryAi(s.health, s.emotion, s.needs).value, s, WeekTips(tipsAi, s).value, now))
    {
      if familyId !in families {
        return Failure(IllegalArgument);
      }
      var start, end := PeriodStart(now, nanos), PeriodEnd(now, nanos);
      if ExistsByFamilyAndPeriod(reports, familyId, start, end) {
        return Failure(IllegalState);
      }
      var s := WeekSections(health, emotion, needs, familyId, now, nanos);
      r := GenerateFromSections(familyId, start, end, s, summaryAi, tipsAi, now);
    }

    /** The part of generateWeeklyReport after the family and duplicate checks. */
    method GenerateFromSections(familyId: int, start: Instant, end: Instant, s: Sections,
                                summaryAi: (string, string, string) -> Option<string>,
                                tipsAi: (string, string, string) -> Option<seq<TipReply>>, now: int)
      returns (r: Result<WeeklyReport>)
      modifies this
      ensures var overall, tips := summaryAi(s.health, s.emotion, s.needs), WeekTips(tipsAi, s);
              && (s.empty ==> r == Failure(IllegalState) && reports == old(reports))
              && (!s.empty && overall.None? ==> r == Failure(Runtime) && reports == old(reports))
              && (!s.empty && overall.Some? && tips.None? ==> r == Failure(Runtime) && reports == old(reports))
              && (!s.empty && overall.Some? && tips.Some? ==>
                    && r.Success? && reports == old(reports) + [r.value] && fresh(r.value)
                    && SavedAs(r.value, familyId, start, end, overall.value, s, tips.value, now))
    {
      if s.empty {
        return Failure(IllegalState);
      }
      var overall := summaryAi(s.health, s.emotion, s.needs);
      if overall.None? {
        return Failure(Runtime);
      }
      var tips := SavedTips(GeneratedTips(tipsAi(s.health, s.emotion, s.needs)));
      if tips.None? {
        // The not-null violation aborts the save, and the transaction rolls back.
        return Failure(Runtime);
      }
      var report := SaveReport(familyId, start, end, overall.value, s, tips.value, now);
      r := Success(report);
    }

    /** Builds the report, attaches its tips and saves it. */
    method SaveReport(familyId: int, start: Instant, end: Instant, summary: string, s: Sections, tips: seq<TipValue>, now: int)
      returns (report: WeeklyReport)
      modifies this
      ensures reports == old(reports) + [report] && fresh(report)
      ensures SavedAs(report, familyId, start, end, summary, s, tips, now)
    {
      report := new WeeklyReport(familyId, start, end, summary, s.health, s.emotion, s.needs, Some(now), now);
      AttachTips(report, tips);
      reports := reports + [report];
    }

    /** getLatestReport: unknown family, or a family with no report, is an error. */
    function GetLatestReport(families: set<int>, familyId: int): (r: Result<WeeklyReport>)
      reads this
      ensures familyId !in families ==> r == Failure(IllegalArgument)
      ensures familyId in families ==>
                (r == Failure(IllegalState) <==> forall i | 0 <= i < |reports| :: reports[i].familyId != familyId)
      ensures r.Success? ==> r.value in reports && r.value.familyId == familyId
                             && forall i | 0 <= i < |reports| :: reports[i].familyId == familyId ==> reports[i].generatedAt <= r.value.generatedAt
    {
      if familyId !in families then Failure(IllegalArgument)
      else
        match FindLatestByFamily(reports, familyId)
        case None => Failure(IllegalState)
        case Some(w) => Success(w)
    }

    /** getAllReports: all of the family's reports, newest first. */
    function GetAllReports(families: set<int>, familyId: int): (r: Result<seq<WeeklyReport>>)
      reads this
      ensures familyId !in families ==> r == Failure(IllegalArgument)
      ensures familyId in families ==> r.Success?
      ensures r.Success? ==> NonIncreasing(r.value, GeneratedAt)
                             && (forall i | 0 <= i < |r.value| :: r.value[i] in reports && r.value[i].familyId == familyId)
                             && (forall i | 0 <= i < |reports| :: reports[i].familyId == familyId ==> reports[i] in r.value)
      ensures r.Success? ==> multiset(r.value) == multiset(Filter(reports, (w: WeeklyReport) => w.familyId == familyId))
    {
      if familyId !in families then Failure(IllegalArgument)
      else Success(FindByFamilyOrderByGeneratedAtDesc(reports, familyId))
    }
  }

  /**
   * Once a report is saved, a second generation in the same week, on a
   * clock with the same sub-second part, is refused at the duplicate check.
   */
  lemma SecondGenerationRefused(reports: seq<WeeklyReport>, report: WeeklyReport, familyId: int,
                                now1: int, nanos1: int, now2: int, nanos2: int,
                                emptyWeek: bool, overall: Option<string>, tips: Option<seq<TipValue>>)
    requires report.familyId == familyId
    requires report.periodStart == PeriodStart(now1, nanos1) && report.periodEnd == PeriodEnd(now1, nanos1)
    requires DayOf(now1) <= DayOf(now2) && DayOfWeek(DayOf(now1)) + (DayOf(now2) - DayOf(now1)) <= 7
    requires nanos1 == nanos2
    ensures GenerationFailure(true, ExistsByFamilyAndPeriod(reports + [report], familyId, PeriodStart(now2, nanos2), PeriodEnd(now2, nanos2)),
                              emptyWeek, overall, tips) == Some(IllegalState)
  {
    SameWeekSamePeriod(now1, nanos1, now2, nanos2);
    assert (reports + [report])[|reports|] == report;
  }

  /**
   * The period keeps the sub-second part of now, so a second generation
   * whose clock differs below the second computes a different period: the
   * report saved by the first does not trip the duplicate check, even in
   * the same week, and a second report for that week can be saved.
   */
  lemma SubSecondClockPassesDuplicateCheck(reports: seq<WeeklyReport>, report: WeeklyReport, familyId: int,
                                           now1: int, nanos1: int, now2: int, nanos2: int)
    requires report.familyId == familyId
    requires report.periodStart == PeriodStart(now1, nanos1) && report.periodEnd == PeriodEnd(now1, nanos1)
    requires nanos1 != nanos2
    ensures PeriodStart(now1, nanos1) != PeriodStart(now2, nanos2) && PeriodEnd(now1, nanos1) != PeriodEnd(now2, nanos2)
    ensures ExistsByFamilyAndPeriod(reports + [report], familyId, PeriodStart(now2, nanos2), PeriodEnd(now2, nanos2))
            == ExistsByFamilyAndPeriod(reports, familyId, PeriodStart(now2, nanos2), PeriodEnd(now2, nanos2))
  {
    var t := reports + [report];
    var start, end := PeriodStart(now2, nanos2), PeriodEnd(now2, nanos2);
    if ExistsByFamilyAndPeriod(t, familyId, start, end) {
      var i :| 0 <= i < |t| && t[i].familyId == familyId && t[i].periodStart == start && t[i].periodEnd == end;
      assert i < |reports| && t[i] == reports[i];
    }
    if ExistsByFamilyAndPeriod(reports, familyId, start, end) {
      var i :| 0 <= i < |reports| && reports[i].familyId == familyId && reports[i].periodStart == start && reports[i].periodEnd == end;
      assert t[i] == reports[i];
    }
  }
}
