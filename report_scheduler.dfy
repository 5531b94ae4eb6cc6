/**
 * The weekly report batch (report/scheduler/ReportScheduler.java): one
 * generation attempt per family, in the order the family table lists
 * them. A success counts as a success; an IllegalStateException (already
 * reported, or no insight in the week) skips the family without counting
 * it; any other failure counts as a failure. The batch never stops early.
 *
 * The cron trigger is not modelled. The family list and the family
 * lookup table are passed separately, as the source reads them with two
 * different queries.
 */
module ReportScheduling {
  import opened Common
  import opened WeeklyReports
  import opened Reporting
  import H = HealthInsights
  import E = EmotionInsights
  import N = NeedsInsights

  predicate Skipped(o: Result<()>)
  {
    o == Failure(IllegalState)
  }

  /** The number of successful attempts. */
  function Successes(outcomes: seq<Result<()>>): nat
  {
    if outcomes == [] then 0
    else Successes(outcomes[..|outcomes| - 1]) + (if outcomes[|outcomes| - 1].Success? then 1 else 0)
  }

  /** The number of attempts that failed other than by being skipped. */
  function Failures(outcomes: seq<Result<()>>): nat
  {
    if outcomes == [] then 0
    else Failures(outcomes[..|outcomes| - 1])
         + (if outcomes[|outcomes| - 1].Failure? && !Skipped(outcomes[|outcomes| - 1]) then 1 else 0)
  }

  function Skips(outcomes: seq<Result<()>>): nat
  {
    if outcomes == [] then 0
    else Skips(outcomes[..|outcomes| - 1]) + (if Skipped(outcomes[|outcomes| - 1]) then 1 else 0)
  }

  /** One more outcome adds itself to exactly the counter it belongs to. */
  lemma TallyStep(outcomes: seq<Result<()>>, o: Result<()>)
    ensures Successes(outcomes + [o]) == Successes(outcomes) + (if o.Success? then 1 else 0)
    ensures Failures(outcomes + [o]) == Failures(outcomes) + (if o.Failure? && !Skipped(o) then 1 else 0)
  {
    assert (outcomes + [o])[..|outcomes|] == outcomes;
  }

  /** The outcomes that are IllegalArgument are exactly those of unknown families. */
  predicate RefusedExactlyUnknown(outcomes: seq<Result<()>>, families: seq<int>, known: set<int>)
    requires |outcomes| <= |families|
  {
    forall k | 0 <= k < |outcomes| :: outcomes[k] == Failure(IllegalArgument) <==> families[k] !in known
  }

  /** An outcome refused exactly when its family is unknown keeps the refusals exact. */
  lemma RefusedStep(outcomes: seq<Result<()>>, families: seq<int>, known: set<int>, o: Result<()>)
    requires |outcomes| < |families| && RefusedExactlyUnknown(outcomes, families, known)
    requires o == Failure(IllegalArgument) <==> families[|outcomes|] !in known
    ensures RefusedExactlyUnknown(outcomes + [o], families, known)
  {
  }

  /** Every attempt is exactly one of success, failure and skip. */
  lemma {:induction false} TallyPartition(outcomes: seq<Result<()>>)
    ensures Successes(outcomes) + Failures(outcomes) + Skips(outcomes) == |outcomes|
    decreases |outcomes|
  {
    if outcomes != [] {
      TallyPartition(outcomes[..|outcomes| - 1]);
    }
  }

  /** No attempt is lost: without skips the two counters add up to the number of families. */
  lemma {:induction false} NoSkipsAllCounted(outcomes: seq<Result<()>>)
    requires forall k | 0 <= k < |outcomes| :: !Skipped(outcomes[k])
    ensures Skips(outcomes) == 0
    ensures Successes(outcomes) + Failures(outcomes) == |outcomes|
    decreases |outcomes|
  {
    if outcomes != [] {
      NoSkipsAllCounted(outcomes[..|outcomes| - 1]);
    }
    TallyPartition(outcomes);
  }

  /**
   * The outcome of generateWeeklyReport for one family, given the reports
   * saved before the attempt: the failure GenerationFailure names, or
   * success.
   */
  function AttemptOutcome(known: set<int>, familyId: int, reports: seq<WeeklyReport>, health: seq<H.HealthInsight>,
                          emotion: seq<E.EmotionInsight>, needs: seq<N.NeedsInsight>,
                          summaryAi: (string, string, string) -> Option<string>,
                          tipsAi: (string, string, string) -> Option<seq<TipReply>>, now: int, nanos: int): (o: Result<()>)
  {
    var s := WeekSections(health, emotion, needs, familyId, now, nanos);
    var f := GenerationFailure(familyId in known,
                               ExistsByFamilyAndPeriod(reports, familyId, PeriodStart(now, nanos), PeriodEnd(now, nanos)),
                               s.empty, summaryAi(s.health, s.emotion, s.needs), WeekTips(tipsAi, s));
    if f.Some? then Failure(f.value) else Success(())
  }

  /** The outcome of every family's attempt, as a function of the table it finds. */
  function AttemptFn(known: set<int>, health: seq<H.HealthInsight>, emotion: seq<E.EmotionInsight>,
                     needs: seq<N.NeedsInsight>, summaryAi: (string, string, string) -> Option<string>,
                     tipsAi: (string, string, string) -> Option<seq<TipReply>>,
                     now: int, nanos: int): (int, seq<WeeklyReport>) -> Result<()>
  {
    (f: int, reps: seq<WeeklyReport>) => AttemptOutcome(known, f, reps, health, emotion, needs, summaryAi, tipsAi, now, nanos)
  }

  /**
   * An attempt succeeds exactly when generateWeeklyReport saves a report,
   * fails with the exception it raises otherwise, and is skipped exactly
   * for a known family whose week is already reported or has no insight.
   */
  lemma AttemptOutcomeCases(known: set<int>, familyId: int, reports: seq<WeeklyReport>, health: seq<H.HealthInsight>,
                            emotion: seq<E.EmotionInsight>, needs: seq<N.NeedsInsight>,
                            summaryAi: (string, string, string) -> Option<string>,
                            tipsAi: (string, string, string) -> Option<seq<TipReply>>, now: int, nanos: int)
    ensures var o := AttemptOutcome(known, familyId, reports, health, emotion, needs, summaryAi, tipsAi, now, nanos);
            var s := WeekSections(health, emotion, needs, familyId, now, nanos);
            var duplicate := ExistsByFamilyAndPeriod(reports, familyId, PeriodStart(now, nanos), PeriodEnd(now, nanos));
            var f := GenerationFailure(familyId in known, duplicate, s.empty, summaryAi(s.health, s.emotion, s.needs),
                                       WeekTips(tipsAi, s));
            && (o.Success? <==> f.None?)
            && (f.Some? ==> o == Failure(f.value))
            && (Skipped(o) <==> familyId in known && (duplicate || s.empty))
  {
  }

  /**
   * The first n outcomes of a batch are what `attempt` gives for their
   * families on the report tables `before[k]` that the attempts found.
   */
  ghost predicate Replayed(outcomes: seq<Result<()>>, families: seq<int>, before: seq<seq<WeeklyReport>>,
                          attempt: (int, seq<WeeklyReport>) -> Result<()>, n: nat)
    decreases n
  {
    n == 0 ||
    (&& n <= |outcomes| && n <= |families| && n <= |before|
     && Replayed(outcomes, families, before, attempt, n - 1)
     && outcomes[n - 1] == attempt(families[n - 1], before[n - 1]))
  }

  /** A replayed prefix ties every one of its outcomes to its attempt. */
  lemma {:induction false} ReplayedOutcomes(outcomes: seq<Result<()>>, families: seq<int>, before: seq<seq<WeeklyReport>>,
                                            attempt: (int, seq<WeeklyReport>) -> Result<()>, n: nat)
    requires Replayed(outcomes, families, before, attempt, n)
    ensures n <= |outcomes| || n == 0
    ensures forall k | 0 <= k < n :: k < |outcomes| && k < |families| && k < |before|
                                     && outcomes[k] == attempt(families[k], before[k])
    decreases n
  {
    if n > 0 {
      ReplayedOutcomes(outcomes, families, before, attempt, n - 1);
    }
  }

  /** One more attempt, tied to its family and the table it found, extends a replayed prefix. */
  lemma {:induction false} ReplayedStep(outcomes: seq<Result<()>>, families: seq<int>, before: seq<seq<WeeklyReport>>,
                                        attempt: (int, seq<WeeklyReport>) -> Result<()>, n: nat,
                                        o: Result<()>, seen: seq<WeeklyReport>)
    requires Replayed(outcomes, families, before, attempt, n)
    requires |outcomes| == n && |before| == n && n < |families|
    requires o == attempt(families[n], seen)
    ensures Replayed(outcomes + [o], families, before + [seen], attempt, n + 1)
  {
    ReplayedExtend(outcomes, families, before, attempt, n, o, seen);
  }

  lemma {:induction false} ReplayedExtend(outcomes: seq<Result<()>>, families: seq<int>, before: seq<seq<WeeklyReport>>,
                                          attempt: (int, seq<WeeklyReport>) -> Result<()>, n: nat,
                                          o: Result<()>, seen: seq<WeeklyReport>)
    requires Replayed(outcomes, families, before, attempt, n)
    ensures Replayed(outcomes + [o], families, before + [seen], attempt, n)
    decreases n
  {
    if n > 0 {
      ReplayedExtend(outcomes, families, before, attempt, n - 1, o, seen);
      assert (outcomes + [o])[n - 1] == outcomes[n - 1] && (before + [seen])[n - 1] == before[n - 1];
    }
  }

  /**
   * The report tables the attempts found: the first is the table before the
   * batch, each is a prefix of the next, a success adds exactly one report,
   * and `current` is the table after the last attempt.
   */
  ghost predicate Chained(outcomes: seq<Result<()>>, before: seq<seq<WeeklyReport>>,
                          start: seq<WeeklyReport>, current: seq<WeeklyReport>)
  {
    && |before| == |outcomes|
    && (|before| == 0 ==> current == start)
    && (|before| > 0 ==> before[0] == start && before[|before| - 1] <= current
                         && |current| == |before[|before| - 1]| + (if outcomes[|outcomes| - 1].Success? then 1 else 0))
    && forall k | 0 <= k < |before| - 1 ::
         before[k] <= before[k + 1] && |before[k + 1]| == |before[k]| + (if outcomes[k].Success? then 1 else 0)
  }

  /** An attempt that keeps the table as a prefix, growing it by one on success, extends the chain. */
  lemma ChainedStep(outcomes: seq<Result<()>>, before: seq<seq<WeeklyReport>>, start: seq<WeeklyReport>,
                    current: seq<WeeklyReport>, o: Result<()>, next: seq<WeeklyReport>)
    requires Chained(outcomes, before, start, current)
    requires current <= next && |next| == |current| + (if o.Success? then 1 else 0)
    ensures Chained(outcomes + [o], before + [current], start, next)
  {
  }

  class ReportScheduler {
    const reportService: ReportService

    constructor (reportService: ReportService)
      ensures this.reportService == reportService
    {
      this.reportService := reportService;
    }

    /** One attempt, reduced to its outcome. */
    method Attempt(known: set<int>, familyId: int, health: seq<H.HealthInsight>, emotion: seq<E.EmotionInsight>,
                   needs: seq<N.NeedsInsight>, summaryAi: (string, string, string) -> Option<string>,
                   tipsAi: (string, string, string) -> Option<seq<TipReply>>, now: int, nanos: int)
      returns (o: Result<()>)
      modifies reportService
      ensures o == AttemptOutcome(known, familyId, old(reportService.reports), health, emotion, needs, summaryAi, tipsAi, now, nanos)
      ensures o == Failure(IllegalArgument) <==> familyId !in known
      ensures o.Failure? ==> o.error in {IllegalArgument, IllegalState, Runtime}
      ensures old(reportService.reports) <= reportService.reports
      ensures |reportService.reports| == |old(reportService.reports)| + (if o.Success? then 1 else 0)
    {
      var r := reportService.GenerateWeeklyReport(known, familyId, health, emotion, needs, summaryAi, tipsAi, now, nanos);
      o := if r.Success? then Success(()) else Failure(r.error);
    }

    /** One attempt of the batch, recorded against the table it found. */
    method RecordedAttempt(families: seq<int>, i: int, known: set<int>, health: seq<H.HealthInsight>,
                           emotion: seq<E.EmotionInsight>, needs: seq<N.NeedsInsight>,
                           summaryAi: (string, string, string) -> Option<string>,
                           tipsAi: (string, string, string) -> Option<seq<TipReply>>, now: int, nanos: int,
                           ghost outcomes: seq<Result<()>>, ghost before: seq<seq<WeeklyReport>>, ghost start: seq<WeeklyReport>)
      returns (o: Result<()>)
      modifies reportService
      requires 0 <= i < |families| && |outcomes| == i && |before| == i
      requires Replayed(outcomes, families, before, AttemptFn(known, health, emotion, needs, summaryAi, tipsAi, now, nanos), i)
      requires Chained(outcomes, before, start, reportService.reports)
      requires RefusedExactlyUnknown(outcomes, families, known)
      ensures Replayed(outcomes + [o], families, before + [old(reportService.reports)],
                       AttemptFn(known, health, emotion, needs, summaryAi, tipsAi, now, nanos), i + 1)
      ensures Chained(outcomes + [o], before + [old(reportService.reports)], start, reportService.reports)
      ensures RefusedExactlyUnknown(outcomes + [o], families, known)
    {
      ghost var seen := reportService.reports;
      o := Attempt(known, families[i], health, emotion, needs, summaryAi, tipsAi, now, nanos);
      ReplayedStep(outcomes, families, before, AttemptFn(known, health, emotion, needs, summaryAi, tipsAi, now, nanos), i, o, seen);
      ChainedStep(outcomes, before, start, seen, o, reportService.reports);
      RefusedStep(outcomes, families, known, o);
    }

    /**
     * generateWeeklyReports: one attempt per family in list order, with
     * the success and failure counters; skipped families are in neither.
     * `before[k]` is the report table as attempt k found it: each outcome
     * is the one generateWeeklyReport gives on that table, and each success
     * adds one report for the next attempt to see.
     */
    method GenerateWeeklyReports(families: seq<int>, known: set<int>, health: seq<H.HealthInsight>,
                                 emotion: seq<E.EmotionInsight>, needs: seq<N.NeedsInsight>,
                                 summaryAi: (string, string, string) -> Option<string>,
                                 tipsAi: (string, string, string) -> Option<seq<TipReply>>, now: int, nanos: int)
      returns (successCount: int, failCount: int, outcomes: seq<Result<()>>, ghost before: seq<seq<WeeklyReport>>)
      modifies reportService
      ensures |outcomes| == |families| && |before| == |families|
      ensures Replayed(outcomes, families, before, AttemptFn(known, health, emotion, needs, summaryAi, tipsAi, now, nanos), |families|)
      ensures Chained(outcomes, before, old(reportService.reports), reportService.reports)
      ensures successCount == Successes(outcomes) && failCount == Failures(outcomes)
      ensures successCount + failCount == |families| - Skips(outcomes)
      ensures forall k | 0 <= k < |outcomes| :: outcomes[k] == Failure(IllegalArgument) <==> families[k] !in known
      ensures |reportService.reports| == |old(reportService.reports)| + successCount
    {
      successCount, failCount, outcomes, before := 0, 0, [], [];
      var i := 0;
      while i < |families|
        invariant 0 <= i <= |families| && |outcomes| == i && |before| == i
        invariant successCount == Successes(outcomes) && failCount == Failures(outcomes)
        invariant RefusedExactlyUnknown(outcomes, families, known)
        invariant |reportService.reports| == |old(reportService.reports)| + successCount
        invariant Replayed(outcomes, families, before, AttemptFn(known, health, emotion, needs, summaryAi, tipsAi, now, nanos), i)
        invariant Chained(outcomes, before, old(reportService.reports), reportService.reports)
      {
        ghost var seen := reportService.reports;
        var o := RecordedAttempt(families, i, known, health, emotion, needs, summaryAi, tipsAi, now, nanos,
                                 outcomes, before, old(reportService.reports));
        if o.Success? {
          successCount := successCount + 1;
        } else if !Skipped(o) {
          failCount := failCount + 1;
        }
        TallyStep(outcomes, o);
        outcomes := outcomes + [o];
        before := before + [seen];
        i := i + 1;
      }
      TallyPartition(outcomes);
    }

    /** runManualGeneration: one generation, whose failure is the caller's. */
    method RunManualGeneration(known: set<int>, familyId: int, health: seq<H.HealthInsight>, emotion: seq<E.EmotionInsight>,
                               needs: seq<N.NeedsInsight>, summaryAi: (string, string, string) -> Option<string>,
                               tipsAi: (string, string, string) -> Option<seq<TipReply>>, now: int, nanos: int)
      returns (r: Result<WeeklyReport>)
      modifies reportService
      ensures var s := WeekSections(health, emotion, needs, familyId, now, nanos);
              var f := GenerationFailure(familyId in known,
                                         ExistsByFamilyAndPeriod(old(reportService.reports), familyId, PeriodStart(now, nanos), PeriodEnd(now, nanos)),
                                         s.empty, summaryAi(s.health, s.emotion, s.needs), WeekTips(tipsAi, s));
              && (f.Some? ==> r == Failure(f.value) && reportService.reports == old(reportService.reports))
              && (f.None? ==> r.Success? && reportService.reports == old(reportService.reports) + [r.value])
    {
      r := reportService.GenerateWeeklyReport(known, familyId, health, emotion, needs, summaryAi, tipsAi, now, nanos);
    }
  }
}
