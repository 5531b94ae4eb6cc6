/**
 * Weekly reports and their conversation tips
 * (report/domain/WeeklyReport.java, report/domain/ConversationTip.java)
 * and the report repository (report/repository/WeeklyReportRepository.java).
 *
 * A report's columns never change after it is built; only its tip list
 * grows, and a tip's back-reference to its report is reassigned when the
 * tip is attached.
 */
module WeeklyReports {
  import opened Common

  /** The columns of a conversation tip, as a value. */
  datatype TipValue = TipValue(content: string, priority: int, category: Option<string>)

  class ConversationTip {
    var report: WeeklyReport
    const content: string
    const priority: int
    const category: Option<string>

    constructor (report: WeeklyReport, content: string, priority: int, category: Option<string>)
      ensures this.report == report && this.content == content && this.priority == priority && this.category == category
    {
      this.report := report;
      this.content := content;
      this.priority := priority;
      this.category := category;
    }

    method AssignReport(report: WeeklyReport)
      modifies this
      ensures this.report == report
    {
      this.report := report;
    }
  }

  function TipOf(tip: ConversationTip): TipValue
  {
    TipValue(tip.content, tip.priority, tip.category)
  }

  function TipValues(tips: seq<ConversationTip>): (r: seq<TipValue>)
    ensures |r| == |tips|
    ensures forall i | 0 <= i < |tips| :: r[i] == TipOf(tips[i])
  {
    Map(tips, TipOf)
  }

  class WeeklyReport {
    const familyId: int
    const periodStart: Instant
    const periodEnd: Instant
    const summary: string
    const healthSummary: string
    const emotionSummary: string
    const needsSummary: string
    const generatedAt: int
    var conversationTips: seq<ConversationTip>

    /**
     * The builder: period and summaries are stored as given, a missing
     * generation time becomes the current time, and the tip list starts
     * empty.
     */
    constructor (familyId: int, periodStart: Instant, periodEnd: Instant, summary: string, healthSummary: string,
                 emotionSummary: string, needsSummary: string, generatedAt: Option<int>, now: int)
      ensures this.familyId == familyId && this.periodStart == periodStart && this.periodEnd == periodEnd
      ensures this.summary == summary && this.healthSummary == healthSummary
      ensures this.emotionSummary == emotionSummary && this.needsSummary == needsSummary
      ensures this.generatedAt == (if generatedAt.Some? then generatedAt.value else now)
      ensures conversationTips == []
    {
      this.familyId := familyId;
      this.periodStart := periodStart;
      this.periodEnd := periodEnd;
      this.summary := summary;
      this.healthSummary := healthSummary;
      this.emotionSummary := emotionSummary;
      this.needsSummary := needsSummary;
      this.generatedAt := if generatedAt.Some? then generatedAt.value else now;
      conversationTips := [];
    }

    /** Appends the tip at the end and makes this report its owner. */
    method AddConversationTip(tip: ConversationTip)
      modifies this, tip
      ensures conversationTips == old(conversationTips) + [tip]
      ensures tip.report == this
    {
      conversationTips := conversationTips + [tip];
      tip.AssignReport(this);
    }
  }

  // ------------------------------------------------------ WeeklyReportRepository

  function GeneratedAt(w: WeeklyReport): int
  {
    w.generatedAt
  }

  function FindByFamilyOrderByGeneratedAtDesc(table: seq<WeeklyReport>, familyId: int): (r: seq<WeeklyReport>)
    ensures forall i | 0 <= i < |r| :: r[i] in table && r[i].familyId == familyId
    ensures forall i | 0 <= i < |table| :: table[i].familyId == familyId ==> table[i] in r
    ensures NonIncreasing(r, GeneratedAt)
    ensures multiset(r) == multiset(Filter(table, (w: WeeklyReport) => w.familyId == familyId))
  {
    QueryDesc(table, (w: WeeklyReport) => w.familyId == familyId, GeneratedAt)
  }

  /**
   * ORDER BY generatedAt DESC LIMIT 1: empty exactly when the family has
   * no report, otherwise one of its reports with the latest generation time.
   */
  function FindLatestByFamily(table: seq<WeeklyReport>, familyId: int): (r: Option<WeeklyReport>)
    ensures r.None? <==> forall i | 0 <= i < |table| :: table[i].familyId != familyId
    ensures r.Some? ==> r.value in table && r.value.familyId == familyId
    ensures r.Some? ==> forall i | 0 <= i < |table| :: table[i].familyId == familyId ==> table[i].generatedAt <= r.value.generatedAt
  {
    var all := FindByFamilyOrderByGeneratedAtDesc(table, familyId);
    if all == [] then None
    else
      assert forall i | 0 <= i < |all| :: all[0].generatedAt >= all[i].generatedAt by {
        forall i | 0 < i < |all| ensures all[0].generatedAt >= all[i].generatedAt {
          assert GeneratedAt(all[0]) >= GeneratedAt(all[i]);
        }
      }
      Some(all[0])
  }

  /** generatedAt BETWEEN start AND end (inclusive), newest first; the period columns play no part. */
  function FindByFamilyAndGeneratedAtBetween(table: seq<WeeklyReport>, familyId: int, start: int, end: int): (r: seq<WeeklyReport>)
    ensures forall i | 0 <= i < |r| :: r[i] in table && r[i].familyId == familyId && start <= r[i].generatedAt <= end
    ensures forall i | 0 <= i < |table| :: table[i].familyId == familyId && start <= table[i].generatedAt <= end ==> table[i] in r
    ensures NonIncreasing(r, GeneratedAt)
    ensures multiset(r) == multiset(Filter(table, (w: WeeklyReport) => w.familyId == familyId && start <= w.generatedAt <= end))
  {
    QueryDesc(table, (w: WeeklyReport) => w.familyId == familyId && start <= w.generatedAt <= end, GeneratedAt)
  }

  /** Some report of the family has exactly this period, to the nanosecond. */
  predicate ExistsByFamilyAndPeriod(table: seq<WeeklyReport>, familyId: int, periodStart: Instant, periodEnd: Instant)
  {
    exists i :: 0 <= i < |table| && table[i].familyId == familyId
                && table[i].periodStart == periodStart && table[i].periodEnd == periodEnd
  }
}
