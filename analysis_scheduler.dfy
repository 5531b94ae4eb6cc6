/**
 * The daily analysis batch (analysis/scheduler/AnalysisScheduler.java):
 * for every family, in the order the family table lists them, analyse the
 * last seven days and then run emergency detection. A failure for one
 * family is caught and the batch goes on with the next.
 *
 * The cron trigger is not modelled; the batch is a method called with the
 * family list, the message and conversation tables, the AI ports and the
 * current time.
 */
module AnalysisScheduling {
  import opened Common
  import opened Conversations
  import opened EmergencyAlerts
  import opened Analysis
  import opened EmergencyAlertDetection

  const DailyDays: int := 7

  /** What happened to one family: the analysis outcome, and the detection outcome when it ran. */
  datatype FamilyRun = FamilyRun(familyId: int, analysis: Result<()>, detection: Option<Result<()>>)

  /** The three AI replies parse whatever the transcript. */
  ghost predicate RepliesAlwaysParse(healthAi: string -> Option<HealthReply>, emotionAi: string -> Option<EmotionReply>,
                                     needsAi: string -> Option<NeedsReply>)
  {
    forall text :: healthAi(text).Some? && emotionAi(text).Some? && needsAi(text).Some?
  }

  /** What one family's iteration reads of the message tables. */
  datatype FamilyView = FamilyView(window: seq<Message>, recent: seq<Message>, lastTimes: seq<Option<int>>)

  /** The seven-day window analyzeFamily reads, the 24-hour window and the last message times detection reads. */
  function View(table: seq<Message>, conversations: seq<Conversation>, familyId: int, now: int): FamilyView
    reads table
  {
    FamilyView(FindRecentMessagesByFamilyId(table, familyId, now - DailyDays * SecondsPerDay),
               FindRecentMessagesByFamilyId(table, familyId, now - ScanWindow),
               LastTimes(FamilyConversations(conversations, familyId), table))
  }

  /** The view of every family of the list, in list order. */
  function ViewsOf(table: seq<Message>, conversations: seq<Conversation>, families: seq<int>, now: int): (r: seq<FamilyView>)
    reads table
    ensures |r| == |families| && forall k | 0 <= k < |families| :: r[k] == View(table, conversations, families[k], now)
  {
    seq(|families|, k requires 0 <= k < |families| reads table => View(table, conversations, families[k], now))
  }

  /**
   * One family's iteration, on values: the outcome and the insight tables
   * after it are analyzeFamily's on the tables it found, and the alert
   * records grow by that family's detection run exactly when the analysis
   * succeeded.
   */
  ghost predicate FamilyStep(run: FamilyRun, familyId: int, known: set<int>, nickname: int -> string,
                             healthAi: string -> Option<HealthReply>, emotionAi: string -> Option<EmotionReply>,
                             needsAi: string -> Option<NeedsReply>, order: seq<AlertType>,
                             alertAi: (AlertType, seq<string>) -> Option<string>, now: int, view: FamilyView,
                             stores: InsightStores, storesAfter: InsightStores,
                             records: seq<AlertRecord>, recordsAfter: seq<AlertRecord>)
  {
    && run.familyId == familyId
    && (run.analysis, storesAfter)
       == Analyze(stores, known, familyId, view.window, nickname, healthAi, emotionAi, needsAi, now)
    && (run.detection.Some? <==> run.analysis.Success?)
    && (run.detection.None? ==> recordsAfter == records)
    && (run.detection.Some? ==>
          && run.detection.value == Success(())
          && CategoryOrder(order)
          && recordsAfter == records + DetectionRun(records, familyId, view.recent, view.lastTimes, order, alertAi, now))
  }

  /**
   * The batch so far: run k is family k's over view k, and it took the
   * insight tables from stores[k] to stores[k + 1] and the alert records
   * from records[k] to records[k + 1].
   */
  ghost predicate Folded(runs: seq<FamilyRun>, families: seq<int>, known: set<int>, nickname: int -> string,
                         healthAi: string -> Option<HealthReply>, emotionAi: string -> Option<EmotionReply>,
                         needsAi: string -> Option<NeedsReply>, order: seq<AlertType>,
                         alertAi: (AlertType, seq<string>) -> Option<string>, now: int,
                         views: seq<FamilyView>, stores: seq<InsightStores>, records: seq<seq<AlertRecord>>)
  {
    && |runs| <= |families| && |runs| <= |views| && |stores| == |runs| + 1 && |records| == |runs| + 1
    && forall k | 0 <= k < |runs| ::
         FamilyStep(runs[k], families[k], known, nickname, healthAi, emotionAi, needsAi, order, alertAi, now,
                    views[k], stores[k], stores[k + 1], records[k], records[k + 1])
  }

  /** The next family's iteration, from the tables the batch left, extends the fold. */
  lemma FoldedStep(runs: seq<FamilyRun>, families: seq<int>, known: set<int>, nickname: int -> string,
                   healthAi: string -> Option<HealthReply>, emotionAi: string -> Option<EmotionReply>,
                   needsAi: string -> Option<NeedsReply>, order: seq<AlertType>,
                   alertAi: (AlertType, seq<string>) -> Option<string>, now: int,
                   views: seq<FamilyView>, stores: seq<InsightStores>, records: seq<seq<AlertRecord>>,
                   run: FamilyRun, storesAfter: InsightStores, recordsAfter: seq<AlertRecord>)
    requires Folded(runs, families, known, nickname, healthAi, emotionAi, needsAi, order, alertAi, now, views, stores, records)
    requires |runs| < |families| && |runs| < |views|
    requires FamilyStep(run, families[|runs|], known, nickname, healthAi, emotionAi, needsAi, order, alertAi, now, views[|runs|],
                        stores[|runs|], storesAfter, records[|runs|], recordsAfter)
    ensures Folded(runs + [run], families, known, nickname, healthAi, emotionAi, needsAi, order, alertAi, now, views,
                   stores + [storesAfter], records + [recordsAfter])
  {
    var n := |runs|;
    forall k | 0 <= k < n + 1
      ensures FamilyStep((runs + [run])[k], families[k], known, nickname, healthAi, emotionAi, needsAi, order, alertAi, now, views[k],
                         (stores + [storesAfter])[k], (stores + [storesAfter])[k + 1],
                         (records + [recordsAfter])[k], (records + [recordsAfter])[k + 1])
    {
      if k < n {
        assert (runs + [run])[k] == runs[k];
        assert (stores + [storesAfter])[k] == stores[k] && (stores + [storesAfter])[k + 1] == stores[k + 1];
        assert (records + [recordsAfter])[k] == records[k] && (records + [recordsAfter])[k + 1] == records[k + 1];
      } else {
        assert (runs + [run])[k] == run;
        assert (stores + [storesAfter])[k] == stores[n] && (stores + [storesAfter])[k + 1] == storesAfter;
        assert (records + [recordsAfter])[k] == records[n] && (records + [recordsAfter])[k + 1] == recordsAfter;
      }
    }
  }

  /**
   * The outcome of every run when the batch is over its own family list:
   * an analysis fails only with a runtime error, and when every reply
   * parses every family is analysed and scanned.
   */
  lemma FoldedOutcomes(runs: seq<FamilyRun>, families: seq<int>, known: set<int>, nickname: int -> string,
                       healthAi: string -> Option<HealthReply>, emotionAi: string -> Option<EmotionReply>,
                       needsAi: string -> Option<NeedsReply>, order: seq<AlertType>,
                       alertAi: (AlertType, seq<string>) -> Option<string>, now: int,
                       views: seq<FamilyView>, stores: seq<InsightStores>, records: seq<seq<AlertRecord>>)
    requires Folded(runs, families, known, nickname, healthAi, emotionAi, needsAi, order, alertAi, now, views, stores, records)
    requires known == set f | f in families
    ensures forall k | 0 <= k < |runs| :: runs[k].analysis.Failure? ==> runs[k].analysis == Failure(Runtime)
    ensures RepliesAlwaysParse(healthAi, emotionAi, needsAi) ==>
              forall k | 0 <= k < |runs| :: runs[k].analysis.Success? && runs[k].detection == Some(Success(()))
  {
    forall k | 0 <= k < |runs|
      ensures runs[k].analysis.Failure? ==> runs[k].analysis == Failure(Runtime)
      ensures RepliesAlwaysParse(healthAi, emotionAi, needsAi) ==>
                runs[k].analysis.Success? && runs[k].detection == Some(Success(()))
    {
      assert FamilyStep(runs[k], families[k], known, nickname, healthAi, emotionAi, needsAi, order, alertAi, now,
                        views[k], stores[k], stores[k + 1], records[k], records[k + 1]);
      assert families[k] in known;
      AnalyzeAllOrNothing(stores[k], known, families[k], views[k].window, nickname, healthAi, emotionAi,
                          needsAi, now);
    }
  }

  class AnalysisScheduler {
    const analysisService: AnalysisService
    const emergencyAlertService: EmergencyAlertService

    constructor (analysisService: AnalysisService, emergencyAlertService: EmergencyAlertService)
      ensures this.analysisService == analysisService && this.emergencyAlertService == emergencyAlertService
    {
      this.analysisService := analysisService;
      this.emergencyAlertService := emergencyAlertService;
    }

    /**
     * runDailyAnalysis: each family is visited exactly once, in list
     * order; run k is FamilyStep over the message tables as they were when
     * the batch started (which it leaves unchanged), from the insight
     * tables and alert records the runs before it left. FoldedOutcomes
     * gives the outcome of each run.
     */
    method RunDailyAnalysis(families: seq<int>, table: seq<Message>, conversations: seq<Conversation>,
                            nickname: int -> string, healthAi: string -> Option<HealthReply>,
                            emotionAi: string -> Option<EmotionReply>, needsAi: string -> Option<NeedsReply>,
                            order: seq<AlertType>, alertAi: (AlertType, seq<string>) -> Option<string>, now: int)
      returns (runs: seq<FamilyRun>, ghost stores: seq<InsightStores>, ghost records: seq<seq<AlertRecord>>)
      requires emergencyAlertService.Valid() && CategoryOrder(order)
      modifies analysisService, emergencyAlertService
      ensures emergencyAlertService.Valid() && unchanged(table)
      ensures |runs| == |families|
      ensures Folded(runs, families, (set f | f in families), nickname, healthAi, emotionAi, needsAi, order, alertAi, now,
                     old(ViewsOf(table, conversations, families, now)), stores, records)
      ensures stores[0] == old(analysisService.Stores()) && stores[|runs|] == analysisService.Stores()
      ensures records[0] == old(Records(emergencyAlertService.alerts))
      ensures records[|runs|] == Records(emergencyAlertService.alerts)
    {
      var known := set f | f in families;
      ghost var views := ViewsOf(table, conversations, families, now);
      runs, stores, records := [], [analysisService.Stores()], [Records(emergencyAlertService.alerts)];
      var i := 0;
      while i < |families|
        invariant 0 <= i <= |families| && |runs| == i
        invariant emergencyAlertService.Valid() && unchanged(table)
        invariant Folded(runs, families, known, nickname, healthAi, emotionAi, needsAi, order, alertAi, now,
                         views, stores, records)
        invariant stores[0] == old(analysisService.Stores()) && stores[i] == analysisService.Stores()
        invariant records[0] == old(Records(emergencyAlertService.alerts))
        invariant records[i] == Records(emergencyAlertService.alerts)
      {
        assert views == ViewsOf(table, conversations, families, now);
        var run := RecordedRun(families, i, known, nickname, healthAi, emotionAi, needsAi, order, alertAi, now,
                               table, conversations, runs, views, stores, records);
        runs := runs + [run];
        stores, records := stores + [analysisService.Stores()], records + [Records(emergencyAlertService.alerts)];
        i := i + 1;
      }
    }

    /** One iteration of the batch, recorded against the tables it found. */
    method RecordedRun(families: seq<int>, i: int, known: set<int>, nickname: int -> string,
                       healthAi: string -> Option<HealthReply>, emotionAi: string -> Option<EmotionReply>,
                       needsAi: string -> Option<NeedsReply>, order: seq<AlertType>,
                       alertAi: (AlertType, seq<string>) -> Option<string>, now: int,
                       table: seq<Message>, conversations: seq<Conversation>,
                       ghost runs: seq<FamilyRun>, ghost views: seq<FamilyView>, ghost stores: seq<InsightStores>,
                       ghost records: seq<seq<AlertRecord>>)
      returns (run: FamilyRun)
      requires 0 <= i < |families| && |runs| == i && families[i] in known
      requires emergencyAlertService.Valid() && CategoryOrder(order)
      requires Folded(runs, families, known, nickname, healthAi, emotionAi, needsAi, order, alertAi, now, views, stores, records)
      requires views == ViewsOf(table, conversations, families, now)
      requires stores[i] == analysisService.Stores() && records[i] == Records(emergencyAlertService.alerts)
      modifies analysisService, emergencyAlertService
      ensures emergencyAlertService.Valid()
      ensures Folded(runs + [run], families, known, nickname, healthAi, emotionAi, needsAi, order, alertAi, now, views,
                     stores + [analysisService.Stores()], records + [Records(emergencyAlertService.alerts)])
    {
      run := RunFamily(families[i], known, nickname, healthAi, emotionAi, needsAi, order, alertAi, now, table, conversations);
      FoldedStep(runs, families, known, nickname, healthAi, emotionAi, needsAi, order, alertAi, now, views, stores, records,
                 run, analysisService.Stores(), Records(emergencyAlertService.alerts));
    }

    /**
     * One iteration of the batch: analyzeFamily(id, 7), then
     * detectEmergencies only if the analysis succeeded.
     */
    method RunFamily(familyId: int, known: set<int>, nickname: int -> string,
                     healthAi: string -> Option<HealthReply>, emotionAi: string -> Option<EmotionReply>,
                     needsAi: string -> Option<NeedsReply>, order: seq<AlertType>,
                     alertAi: (AlertType, seq<string>) -> Option<string>, now: int,
                     table: seq<Message>, conversations: seq<Conversation>)
      returns (run: FamilyRun)
      requires emergencyAlertService.Valid() && CategoryOrder(order)
      modifies analysisService, emergencyAlertService
      ensures emergencyAlertService.Valid() && run.familyId == familyId
      ensures (run.analysis, analysisService.Stores())
              == Analyze(old(analysisService.Stores()), known, familyId,
                         old(FindRecentMessagesByFamilyId(table, familyId, now - DailyDays * SecondsPerDay)),
                         nickname, healthAi, emotionAi, needsAi, now)
      ensures run.detection.Some? <==> run.analysis.Success?
      ensures run.detection.None? ==> emergencyAlertService.alerts == old(emergencyAlertService.alerts)
      ensures run.detection.Some? ==>
                && run.detection.value == Success(())
                && Records(emergencyAlertService.alerts)
                   == old(Records(emergencyAlertService.alerts))
                      + DetectionRun(old(Records(emergencyAlertService.alerts)), familyId,
                                     old(FindRecentMessagesByFamilyId(table, familyId, now - ScanWindow)),
                                     old(LastTimes(FamilyConversations(conversations, familyId), table)),
                                     order, alertAi, now)
    {
      ghost var window := FindRecentMessagesByFamilyId(table, familyId, now - DailyDays * SecondsPerDay);
      ghost var recent := FindRecentMessagesByFamilyId(table, familyId, now - ScanWindow);
      ghost var lastTimes := LastTimes(FamilyConversations(conversations, familyId), table);
      ghost var records := Records(emergencyAlertService.alerts);
      var analysis := DailyAnalysis(familyId, known, nickname, healthAi, emotionAi, needsAi, now, table, conversations,
                                    window, recent, lastTimes);
      var detection := DetectionAfter(analysis, familyId, known, order, alertAi, now, table, conversations,
                                      recent, lastTimes, records);
      run := FamilyRun(familyId, analysis, detection);
    }

    /**
     * The analysis half of an iteration, analyzeFamily(id, 7) over the
     * given seven-day window; the scan window and last times detection
     * reads are the same after it.
     */
    method DailyAnalysis(familyId: int, known: set<int>, nickname: int -> string,
                         healthAi: string -> Option<HealthReply>, emotionAi: string -> Option<EmotionReply>,
                         needsAi: string -> Option<NeedsReply>, now: int,
                         table: seq<Message>, conversations: seq<Conversation>,
                         ghost window: seq<Message>, ghost recent: seq<Message>, ghost lastTimes: seq<Option<int>>)
      returns (analysis: Result<()>)
      requires window == FindRecentMessagesByFamilyId(table, familyId, now - DailyDays * SecondsPerDay)
      requires recent == FindRecentMessagesByFamilyId(table, familyId, now - ScanWindow)
      requires lastTimes == LastTimes(FamilyConversations(conversations, familyId), table)
      modifies analysisService
      ensures (analysis, analysisService.Stores())
              == Analyze(old(analysisService.Stores()), known, familyId, window, nickname, healthAi, emotionAi, needsAi, now)
      ensures recent == FindRecentMessagesByFamilyId(table, familyId, now - ScanWindow)
      ensures lastTimes == LastTimes(FamilyConversations(conversations, familyId), table)
    {
      analysis := analysisService.AnalyzeFamily(known, familyId, DailyDays, table, nickname, healthAi, emotionAi, needsAi, now);
    }

    /**
     * The detection half of an iteration: detectEmergencies runs only
     * after a successful analysis, over the scan window, last times and
     * alert records it is given.
     */
    method DetectionAfter(analysis: Result<()>, familyId: int, known: set<int>, order: seq<AlertType>,
                          alertAi: (AlertType, seq<string>) -> Option<string>, now: int,
                          table: seq<Message>, conversations: seq<Conversation>,
                          ghost recent: seq<Message>, ghost lastTimes: seq<Option<int>>, ghost records: seq<AlertRecord>)
      returns (detection: Option<Result<()>>)
      requires emergencyAlertService.Valid() && CategoryOrder(order)
      requires analysis.Success? ==> familyId in known
      requires recent == FindRecentMessagesByFamilyId(table, familyId, now - ScanWindow)
      requires lastTimes == LastTimes(FamilyConversations(conversations, familyId), table)
      requires records == Records(emergencyAlertService.alerts)
      modifies emergencyAlertService
      ensures emergencyAlertService.Valid()
      ensures detection.Some? <==> analysis.Success?
      ensures detection.None? ==> emergencyAlertService.alerts == old(emergencyAlertService.alerts)
      ensures detection.Some? ==>
                && detection.value == Success(())
                && Records(emergencyAlertService.alerts)
                   == records + DetectionRun(records, familyId, recent, lastTimes, order, alertAi, now)
    {
      detection := None;
      if analysis.Success? {
        var d := emergencyAlertService.DetectEmergencies(known, familyId, table, conversations, order, alertAi, now);
        detection := Some(d);
      }
    }

    /** runManualAnalysis: analyzeFamily with the given window; its failure is the caller's. */
    method RunManualAnalysis(families: set<int>, familyId: int, days: int, table: seq<Message>, nickname: int -> string,
                             healthAi: string -> Option<HealthReply>, emotionAi: string -> Option<EmotionReply>,
                             needsAi: string -> Option<NeedsReply>, now: int)
      returns (r: Result<()>)
      modifies analysisService
      ensures (r, analysisService.Stores())
              == Analyze(old(analysisService.Stores()), families, familyId,
                         old(FindRecentMessagesByFamilyId(table, familyId, now - days * SecondsPerDay)),
                         nickname, healthAi, emotionAi, needsAi, now)
    {
      r := analysisService.AnalyzeFamily(families, familyId, days, table, nickname, healthAi, emotionAi, needsAi, now);
    }
  }
}
