# Family monitoring service — a Dafny model of its core

The system is a Spring service that helps adult children keep in touch with
their parents. Family members chat in family conversations. Every day a batch
job sends each family's last week of messages to an AI model and stores three
insights per family: health, emotion and needs. The same batch then scans the
last 24 hours for risk keywords and looks for conversations that have gone
silent, and it raises emergency alerts for what it finds. Once a week a second
batch turns the week's insights into a weekly report with conversation tips.
Alongside these jobs the service has:

- pure calculators for risk, sentiment, trend, keyword frequency, conversation
  statistics, question tips and product suggestions;
- family management: create, join by invite code, leave;
- login with refresh-token rotation;
- small helpers over the Kakao profile and the Gemini response.

The model follows the code module by module:

- **Entities mutated in place** are Dafny classes: `EmergencyAlert`,
  `WeeklyReport`, `ConversationTip`, `Conversation`, `Message`, `Family`,
  `FamilyMember` and `User`.
- **Services** are classes as well. Their repository tables are `seq` fields
  that the methods extend or update: `EmergencyAlertService.alerts`,
  `AnalysisService.{health, emotion, needs}`, `ReportService.reports`,
  `FamilyService.{families, members}` and `AuthService.users`.
- **Immutable records** (insights, DTOs, analysis results) are datatypes. Pure
  calculators are functions. Loops the source writes (keyword scans, counters,
  batch loops, question and product lists) are methods with loop invariants.
- **Each method is proved against a specification function.** Examples are
  `DetectionRun` for a detection run, `Analyze` for `analyzeFamily`,
  `GenerationFailure` for report generation, and the `Find…` queries for
  repository reads. The source's promises are lemmas about those functions.

Conventions:

- Times are whole seconds since 1970-01-01 00:00 local time. A day is
  `t / 86400`, and the ISO weekday of day `d` is `(d + 3) % 7 + 1`. The
  weekly report period is the exception: its bounds are `Instant`s (seconds
  plus nanoseconds), because they keep the sub-second part of `now`.
- String lengths are Java's `String.length()`: UTF-16 code units, so a
  character outside the Basic Multilingual Plane counts twice
  (`Utf16Length`).
- One `now` is passed to each service call.
- Calls to the AI model and the parsing of its JSON replies are function
  parameters that return `Option`. `None` stands for a call that threw or a
  reply that did not parse.
- JPA queries are `Query` / `QueryDesc`: a filter followed by a stable
  insertion sort on a `Rank` key.

## Model

Source paths are relative to the repository root.

| member | source | states |
|---|---|---|
| EmergencyAlerts.EmergencyAlert.constructor | src/main/java/com/example/spring/alert/domain/EmergencyAlert.java:95-105 | every column is stored as given (severity unchecked); a new alert is unacknowledged with no acknowledgement time |
| EmergencyAlerts.EmergencyAlert.Acknowledge | src/main/java/com/example/spring/alert/domain/EmergencyAlert.java:110-113 | sets acknowledged and acknowledgedAt = now; calling it again overwrites the time |
| EmergencyAlerts.EmergencyAlert.IsHighSeverity | src/main/java/com/example/spring/alert/domain/EmergencyAlert.java:118-120 | holds iff severity >= 8 |
| EmergencyAlerts.FindByFamilyOrderByCreatedAtDesc | src/main/java/com/example/spring/alert/repository/EmergencyAlertRepository.java:23 | exactly the family's alerts, each as often as in the table, newest first |
| EmergencyAlerts.FindByFamilyAndAcknowledgedFalseOrderByCreatedAtDesc | src/main/java/com/example/spring/alert/repository/EmergencyAlertRepository.java:28 | exactly the family's unacknowledged alerts, each as often as in the table, newest first |
| EmergencyAlerts.FindByFamilyAndAlertType | src/main/java/com/example/spring/alert/repository/EmergencyAlertRepository.java:33 | the family's alerts of the given type, in table order: Filter of the table |
| EmergencyAlerts.FindHighSeverityByFamily | src/main/java/com/example/spring/alert/repository/EmergencyAlertRepository.java:38-42 | the same multiset as filtering the table on family and IsHighSeverity, newest first |
| EmergencyAlerts.FindByFamilyAndCreatedAtBetween | src/main/java/com/example/spring/alert/repository/EmergencyAlertRepository.java:47-55 | the family's alerts with start <= createdAt <= end (both ends inclusive), as a multiset equal to that filter, newest first |
| EmergencyAlerts.ExistsByFamilyAndAlertTypeAndCreatedAtAfter | src/main/java/com/example/spring/alert/repository/EmergencyAlertRepository.java:60-68 | true iff some alert of that family and type has createdAt >= since (inclusive despite the name) |
| EmergencyAlertDetection.FirstMatch | src/main/java/com/example/spring/alert/service/EmergencyAlertService.java:85-98 | a keyword is found iff the lower-cased content contains some keyword; the one returned is the first such in list order |
| EmergencyAlertDetection.ScanMessage | src/main/java/com/example/spring/alert/service/EmergencyAlertService.java:85-98 | the inner loop with its break returns exactly FirstMatch |
| EmergencyAlertDetection.ScanCategory | src/main/java/com/example/spring/alert/service/EmergencyAlertService.java:81-99 | the scan loop builds detectedKeywords and matchedMessages equal to their specification lists |
| EmergencyAlertDetection.DetectionLists | src/main/java/com/example/spring/alert/service/EmergencyAlertService.java:81-99 | both lists have one entry per matching message (duplicates kept), entry i being that message's first keyword and its line |
| EmergencyAlertDetection.CalculateSeverity | src/main/java/com/example/spring/alert/service/EmergencyAlertService.java:259-269 | min(10, base + count/2): within [base, 10], equal to base when count <= 1, 10 iff base + count/2 >= 10 |
| EmergencyAlertDetection.ContentShowsFirstThreeKeywords | src/main/java/com/example/spring/alert/service/EmergencyAlertService.java:236-254 | the alert content depends on the detected keywords only through the first three |
| EmergencyAlertDetection.HoursBetween | src/main/java/com/example/spring/alert/service/EmergencyAlertService.java:181-183 | the whole number of hours between two times, rounded down |
| EmergencyAlertDetection.CategoryAlert | src/main/java/com/example/spring/alert/service/EmergencyAlertService.java:139-167 | a keyword alert carries the category's type, the family and createdAt = now |
| EmergencyAlertDetection.CategoryAlertSpec | src/main/java/com/example/spring/alert/service/EmergencyAlertService.java:99-219 | a category yields an alert iff some message matched; its severity is CalculateSeverity of the match count and its AI text is the fallback when the AI call fails |
| EmergencyAlertDetection.KeywordPhaseFires | src/main/java/com/example/spring/alert/service/EmergencyAlertService.java:77-111 | a category gets an alert in a run iff it has a candidate and no alert of its type exists since now - 1 h |
| EmergencyAlertDetection.NoResponseSuppressed | src/main/java/com/example/spring/alert/service/EmergencyAlertService.java:126-128 | a NO_RESPONSE alert since now - 24 h suppresses every silence alert of the run |
| EmergencyAlertDetection.NoResponsePhaseSpec | src/main/java/com/example/spring/alert/service/EmergencyAlertService.java:117-194 | the silence phase adds at most one alert; it adds one iff some conversation's last message is strictly before now - 48 h and no NO_RESPONSE alert exists since now - 24 h; that alert has severity 7 and keywords "무응답" |
| EmergencyAlertDetection.LastTimeIsLatest | src/main/java/com/example/spring/conversation/repository/MessageRepository.java:73-77 | a conversation's last message time is the largest sentAt among its messages, absent iff it has none |
| EmergencyAlertDetection.LastMessageTime | src/main/java/com/example/spring/alert/service/EmergencyAlertService.java:121-124 | the silence check reads the time of findLastMessageByConversation |
| EmergencyAlertDetection.OneAlertPerTypePerRun | src/main/java/com/example/spring/alert/service/EmergencyAlertService.java:53-71 | a detection run never adds two alerts of the same type |
| EmergencyAlertDetection.DetectionRunKeywordAlert | src/main/java/com/example/spring/alert/service/EmergencyAlertService.java:53-111 | a run adds an alert of a keyword category iff a message of the last 24 h matched it and none of that type exists since now - 1 h |
| EmergencyAlertDetection.DetectionRunSilenceAlert | src/main/java/com/example/spring/alert/service/EmergencyAlertService.java:53-134 | a run adds a NO_RESPONSE alert iff some conversation is silent for over 48 h and none exists since now - 24 h |
| EmergencyAlertDetection.EmergencyAlertService.Save | src/main/java/com/example/spring/alert/service/EmergencyAlertService.java:164-166 | appends one fresh, unacknowledged alert with the given record |
| EmergencyAlertDetection.EmergencyAlertService.CreateEmergencyAlert | src/main/java/com/example/spring/alert/service/EmergencyAlertService.java:139-167 | appends exactly the keyword alert record; earlier alerts are unchanged |
| EmergencyAlertDetection.EmergencyAlertService.CreateNoResponseAlert | src/main/java/com/example/spring/alert/service/EmergencyAlertService.java:172-194 | appends exactly the NO_RESPONSE alert record |
| EmergencyAlertDetection.EmergencyAlertService.DetectHighRiskKeywords | src/main/java/com/example/spring/alert/service/EmergencyAlertService.java:76-112 | the category loop appends exactly KeywordPhase of the categories' candidates |
| EmergencyAlertDetection.EmergencyAlertService.DetectNoResponse | src/main/java/com/example/spring/alert/service/EmergencyAlertService.java:117-134 | the conversation loop appends exactly NoResponsePhase, each alert saved before the next conversation is checked |
| EmergencyAlertDetection.EmergencyAlertService.DetectEmergencies | src/main/java/com/example/spring/alert/service/EmergencyAlertService.java:53-71 | an unknown family fails with IllegalArgument and writes nothing; otherwise exactly DetectionRun is appended |
| EmergencyAlertDetection.EmergencyAlertService.DetectFamily | src/main/java/com/example/spring/alert/service/EmergencyAlertService.java:60-70 | the keyword scan over the last 24 h followed by the silence scan appends exactly DetectionRun |
| EmergencyAlertDetection.EmergencyAlertService.GetUnacknowledgedAlerts | src/main/java/com/example/spring/alert/service/EmergencyAlertService.java:274-279 | unknown family -> IllegalArgument; else exactly the family's unacknowledged alerts, newest first, each as often as in the table |
| EmergencyAlertDetection.EmergencyAlertService.IndexOfAlert | src/main/java/com/example/spring/alert/service/EmergencyAlertService.java:285-287 | finds an alert with the id, or reports that none has it |
| EmergencyAlertDetection.EmergencyAlertService.AcknowledgeAlert | src/main/java/com/example/spring/alert/service/EmergencyAlertService.java:284-291 | fails with IllegalArgument iff no alert has the id; otherwise that alert is acknowledged at now and every other alert keeps its state |
| Conversations.Message.constructor | src/main/java/com/example/spring/conversation/domain/Message.java:83-92 | fields stored as given; sentAt defaults to now; no image description |
| Conversations.Message.IsText | src/main/java/com/example/spring/conversation/domain/Message.java:111-113 | holds iff the type is TEXT, and exactly when IsImage does not |
| Conversations.Message.IsImage | src/main/java/com/example/spring/conversation/domain/Message.java:118-120 | holds iff the type is IMAGE |
| Conversations.Message.IsImageAnalyzed | src/main/java/com/example/spring/conversation/domain/Message.java:125-127 | holds iff the message is an image with a description, so it implies IsImage |
| Conversations.Message.UpdateImageDescription | src/main/java/com/example/spring/conversation/domain/Message.java:104-106 | sets only the image description |
| Conversations.Conversation.constructor | src/main/java/com/example/spring/conversation/domain/Conversation.java:65-69 | a new conversation has no messages |
| Conversations.Conversation.AddMessage | src/main/java/com/example/spring/conversation/domain/Conversation.java:74-77 | appends the message and points it back at this conversation |
| Conversations.Conversation.UpdateName | src/main/java/com/example/spring/conversation/domain/Conversation.java:82-84 | changes only the name |
| Conversations.Conversation.RecentMessages | src/main/java/com/example/spring/conversation/domain/Conversation.java:89-94 | exactly the Filter of the messages on sentAt strictly after now - days: table order, every matching message as often as in the list |
| Conversations.Conversation.MessagesBetween | src/main/java/com/example/spring/conversation/domain/Conversation.java:99-106 | exactly the Filter of the messages strictly between start and end, in list order with their multiplicities |
| Conversations.FindByConversationOrderBySentAtAsc | src/main/java/com/example/spring/conversation/repository/MessageRepository.java:23 | exactly the conversation's messages, each as often as in the table, oldest first |
| Conversations.FindByConversationAndSentAtBetween | src/main/java/com/example/spring/conversation/repository/MessageRepository.java:28-34 | the conversation's messages with start <= sentAt <= end, each as often as in the table, oldest first |
| Conversations.FindByFamilyIdAndSentAtBetween | src/main/java/com/example/spring/conversation/repository/MessageRepository.java:39-47 | the family's messages with start <= sentAt <= end, each as often as in the table, oldest first |
| Conversations.FindRecentMessagesByFamilyId | src/main/java/com/example/spring/conversation/repository/MessageRepository.java:52-59 | the family's messages with sentAt >= since, each as often as in the table, oldest first |
| Conversations.FindUnanalyzedImageMessages | src/main/java/com/example/spring/conversation/repository/MessageRepository.java:64-68 | exactly the IMAGE messages without a description, each as often as in the table, oldest first |
| Conversations.FindLastMessageByConversation | src/main/java/com/example/spring/conversation/repository/MessageRepository.java:73-77 | a message of the conversation with maximal sentAt, absent iff it has none |
| Conversations.FindByFamilyIdAndTypeAndSentAtBetween | src/main/java/com/example/spring/conversation/repository/MessageRepository.java:82-92 | the inclusive range filter plus type equality, each match as often as in the table, oldest first |
| HealthInsights.HealthInsight.IsHighRisk | src/main/java/com/example/spring/insight/domain/HealthInsight.java:89-91 | holds iff severity >= 7 |
| HealthInsights.Build | src/main/java/com/example/spring/insight/domain/HealthInsight.java:75-84 | fields stored as given (no range check); analyzedAt defaults to now |
| HealthInsights.FindByFamilyOrderByAnalyzedAtDesc | src/main/java/com/example/spring/insight/repository/HealthInsightRepository.java:22 | a permutation of the family's insights in non-increasing analyzedAt |
| HealthInsights.FindByFamilyAndAnalyzedAtBetween | src/main/java/com/example/spring/insight/repository/HealthInsightRepository.java:27-35 | the multiset of the filter on family and start <= analyzedAt <= end, newest first; empty iff none qualifies |
| HealthInsights.FindHighRiskByFamily | src/main/java/com/example/spring/insight/repository/HealthInsightRepository.java:40-44 | the multiset of the filter on family and IsHighRisk, newest first |
| HealthInsights.FindRecentByFamilyId | src/main/java/com/example/spring/insight/repository/HealthInsightRepository.java:49-56 | the multiset of the filter on family and analyzedAt >= since, newest first |
| EmotionInsights.EmotionInsight.IsNegative | src/main/java/com/example/spring/insight/domain/EmotionInsight.java:89-91 | holds iff emotionScore < -3 |
| EmotionInsights.EmotionInsight.IsHighRisk | src/main/java/com/example/spring/insight/domain/EmotionInsight.java:96-100 | holds iff emotionScore <= -7 or the type contains "우울" or "외로움" |
| EmotionInsights.Build | src/main/java/com/example/spring/insight/domain/EmotionInsight.java:76-84 | fields stored as given; analyzedAt defaults to now |
| EmotionInsights.RiskAndNegativity | src/main/java/com/example/spring/insight/domain/EmotionInsight.java:89-100 | score <= -7 gives both; -6..-4 without the words is negative only; a word with a score >= -3 is high-risk only |
| EmotionInsights.FindByFamilyOrderByAnalyzedAtDesc | src/main/java/com/example/spring/insight/repository/EmotionInsightRepository.java:22 | a permutation of the family's insights, newest first |
| EmotionInsights.FindByFamilyAndAnalyzedAtBetween | src/main/java/com/example/spring/insight/repository/EmotionInsightRepository.java:27-35 | inclusive on both ends, newest first |
| EmotionInsights.FindNegativeByFamily | src/main/java/com/example/spring/insight/repository/EmotionInsightRepository.java:40-44 | the multiset of the filter on family and IsNegative, newest first |
| EmotionInsights.FindHighRiskByFamily | src/main/java/com/example/spring/insight/repository/EmotionInsightRepository.java:49-53 | the multiset of the filter on family and IsHighRisk (LIKE as substring containment), newest first |
| EmotionInsights.FindRecentByFamilyId | src/main/java/com/example/spring/insight/repository/EmotionInsightRepository.java:58-65 | analyzedAt >= since, newest first |
| NeedsInsights.NeedsInsight.IsHighPriority | src/main/java/com/example/spring/insight/domain/NeedsInsight.java:96-98 | holds iff priority >= 7 |
| NeedsInsights.Build | src/main/java/com/example/spring/insight/domain/NeedsInsight.java:81-91 | fields stored as given (no range check); analyzedAt defaults to now |
| NeedsInsights.FindByFamilyOrderByAnalyzedAtDesc | src/main/java/com/example/spring/insight/repository/NeedsInsightRepository.java:22 | a permutation of the family's insights, newest first |
| NeedsInsights.FindByFamilyAndAnalyzedAtBetween | src/main/java/com/example/spring/insight/repository/NeedsInsightRepository.java:27-35 | inclusive on both ends, newest first; empty iff none qualifies |
| NeedsInsights.FindHighPriorityByFamily | src/main/java/com/example/spring/insight/repository/NeedsInsightRepository.java:40-44 | the multiset of the filter on family and IsHighPriority, by priority descending then newest first |
| NeedsInsights.FindRecentByFamilyId | src/main/java/com/example/spring/insight/repository/NeedsInsightRepository.java:49-56 | analyzedAt >= since, newest first |
| NeedsInsights.FindByFamilyAndCategory | src/main/java/com/example/spring/insight/repository/NeedsInsightRepository.java:61 | the Filter of the table on family and category, in table order |
| Analysis.TranscriptLines | src/main/java/com/example/spring/analysis/service/AnalysisService.java:174-182 | one "[date] nickname: content" line per TEXT message, in input order |
| Analysis.TranscriptIgnoresImages | src/main/java/com/example/spring/analysis/service/AnalysisService.java:176 | the transcript is the same with the IMAGE messages removed |
| Analysis.ImageOnlyTranscript | src/main/java/com/example/spring/analysis/service/AnalysisService.java:176-181 | a window holding only images gives the empty transcript |
| Analysis.HealthOf | src/main/java/com/example/spring/analysis/service/AnalysisService.java:85-94 | the stored health insight carries the family, the parsed severity as is, and analyzedAt = now |
| Analysis.EmotionOf | src/main/java/com/example/spring/analysis/service/AnalysisService.java:117-126 | the stored emotion insight carries the family, the parsed score as is, and now |
| Analysis.NeedsOf | src/main/java/com/example/spring/analysis/service/AnalysisService.java:150-160 | the stored needs insight carries the family, the parsed priority as is, and now |
| Analysis.AnalyzeText | src/main/java/com/example/spring/analysis/service/AnalysisService.java:65-67 | the three analyses only append, at most one insight each; any failure is the runtime error |
| Analysis.AnalyzeTextOutcome | src/main/java/com/example/spring/analysis/service/AnalysisService.java:65-168 | health is stored iff its reply parses, emotion iff both first replies parse, needs iff all three do: a failure stops the later analyses |
| Analysis.Analyze | src/main/java/com/example/spring/analysis/service/AnalysisService.java:46-70 | unknown family -> IllegalArgument and no change; empty window -> success and no change |
| Analysis.AnalyzeAllOrNothing | src/main/java/com/example/spring/analysis/service/AnalysisService.java:46-70 | a failed run leaves every table as it was; the runtime error happens iff the window is non-empty and some reply does not parse; success adds nothing (empty window) or one insight of each kind |
| Analysis.SuccessAddsOneOfEach | src/main/java/com/example/spring/analysis/service/AnalysisService.java:85-160 | a successful run on a non-empty window adds exactly one insight of each kind for the family, with no duplicate check |
| Analysis.ImageOnlyWindowIsAnalyzed | src/main/java/com/example/spring/analysis/service/AnalysisService.java:55-67 | a window of images only is not empty, so the three analyses still run on the empty transcript |
| Analysis.AnalysisService.AnalyzeHealth | src/main/java/com/example/spring/analysis/service/AnalysisService.java:75-102 | unparsable reply -> runtime error and nothing saved; otherwise exactly HealthOf is appended; the other tables are unchanged |
| Analysis.AnalysisService.AnalyzeEmotion | src/main/java/com/example/spring/analysis/service/AnalysisService.java:107-135 | the same for the emotion insight |
| Analysis.AnalysisService.AnalyzeNeeds | src/main/java/com/example/spring/analysis/service/AnalysisService.java:140-169 | the same for the needs insight |
| Analysis.AnalysisService.AnalyzeTranscript | src/main/java/com/example/spring/analysis/service/AnalysisService.java:65-67 | health, then emotion, then needs, stopping at the first failure, gives exactly AnalyzeText |
| Analysis.AnalysisService.AnalyzeFamily | src/main/java/com/example/spring/analysis/service/AnalysisService.java:46-70 | result and tables are exactly Analyze of the family's messages since now - days, read when the call starts; the message table is unchanged |
| AnalysisScheduling.AnalysisScheduler.RunDailyAnalysis | src/main/java/com/example/spring/analysis/scheduler/AnalysisScheduler.java:31-56 | one run per family, in list order; run k is FamilyStep for family k over the message tables as they were at the start, from the insight tables and alert records run k - 1 left; the first tables are the old ones and the last the new ones; a family's failure is caught and the loop goes on; the message table is unchanged |
| AnalysisScheduling.FoldedOutcomes | src/main/java/com/example/spring/analysis/scheduler/AnalysisScheduler.java:40-52 | in such a batch every failed analysis is the runtime error, and when every reply parses every family is analysed and scanned |
| AnalysisScheduling.FoldedStep | src/main/java/com/example/spring/analysis/scheduler/AnalysisScheduler.java:39-53 | one more family's iteration, from the tables the batch left, extends the batch by one step |
| AnalysisScheduling.AnalysisScheduler.RunFamily | src/main/java/com/example/spring/analysis/scheduler/AnalysisScheduler.java:40-52 | result and insight tables are exactly Analyze over the seven-day window; detection runs iff the analysis succeeded; then the alert records grow by exactly DetectionRun over the 24-hour window and last message times, else the alerts are unchanged |
| AnalysisScheduling.AnalysisScheduler.RunManualAnalysis | src/main/java/com/example/spring/analysis/scheduler/AnalysisScheduler.java:62-65 | forwards the given days; the outcome is exactly Analyze's over the window read at call time, failures included |
| WeeklyReports.ConversationTip.constructor | src/main/java/com/example/spring/report/domain/ConversationTip.java:48-54 | fields stored as given |
| WeeklyReports.ConversationTip.AssignReport | src/main/java/com/example/spring/report/domain/ConversationTip.java:59-61 | sets the tip's report |
| WeeklyReports.WeeklyReport.constructor | src/main/java/com/example/spring/report/domain/WeeklyReport.java:95-107 | period and summaries stored as given; generatedAt defaults to now; no tips |
| WeeklyReports.WeeklyReport.AddConversationTip | src/main/java/com/example/spring/report/domain/WeeklyReport.java:112-115 | appends the tip, keeps the earlier ones, and sets the tip's report to this report |
| WeeklyReports.FindByFamilyOrderByGeneratedAtDesc | src/main/java/com/example/spring/report/repository/WeeklyReportRepository.java:23 | a permutation of the family's reports in non-increasing generatedAt |
| WeeklyReports.FindLatestByFamily | src/main/java/com/example/spring/report/repository/WeeklyReportRepository.java:28-29 | a report of the family with maximal generatedAt, absent iff the family has none |
| WeeklyReports.FindByFamilyAndGeneratedAtBetween | src/main/java/com/example/spring/report/repository/WeeklyReportRepository.java:34-42 | the multiset of the filter on family and generatedAt in [start, end], inclusive, not on the period; newest first |
| Reporting.PeriodEndDay | src/main/java/com/example/spring/report/service/ReportService.java:53-55 | the period ends on the Sunday strictly before today, at most seven days back |
| Reporting.ReportPeriod | src/main/java/com/example/spring/report/service/ReportService.java:53-55 | periodStart is a Monday at 00:00:00 and periodEnd the following Sunday at 23:59:59, six days later and before today; both keep the nanoseconds of now |
| Common.CeilSeconds | src/main/java/com/example/spring/report/service/ReportService.java:54-55 | the least whole second at or after an instant: it is at or after it and the second before is not |
| Reporting.SecondsBoundsExact | src/main/java/com/example/spring/report/service/ReportService.java:64-66 | a whole-second time is BETWEEN the period's instants iff it lies in [FirstSecond, LastSecond]; with a non-zero sub-second part the Monday midnight itself is outside |
| Reporting.SameWeekSamePeriod | src/main/java/com/example/spring/report/service/ReportService.java:53-55 | two calls in the same Monday-to-Sunday week, on clocks with the same sub-second part, compute the same period |
| Reporting.Section | src/main/java/com/example/spring/report/service/ReportService.java:107-143 | the fixed sentence for an empty list; otherwise text that starts with the first bullet and contains every bullet |
| Reporting.SectionsDistinguishEmpty | src/main/java/com/example/spring/report/service/ReportService.java:107-143 | a section equals its fixed sentence iff its list is empty |
| Reporting.WeekSectionsEmpty | src/main/java/com/example/spring/report/service/ReportService.java:64-71 | the "no insights" case holds iff no insight of the three kinds lies in [periodStart, periodEnd], compared as instants |
| Reporting.WeekSectionsText | src/main/java/com/example/spring/report/service/ReportService.java:64-115 | the health section lists one bullet per insight of the period, in repository order |
| Reporting.GeneratedTips | src/main/java/com/example/spring/report/service/ReportService.java:171-231 | a parsed reply gives one tip per element in order, nulls included, with no count or range check; a thrown call or parse gives exactly [FallbackTip], priority 5 and category "건강 관심" |
| Reporting.SavedTips | src/main/java/com/example/spring/report/domain/ConversationTip.java:33-40 | the save fails (None) iff some tip has a null content or priority, the two not-null columns; otherwise one saved value per tip, in order, with the same content, priority and (possibly null) category |
| Reporting.FallbackSaves | src/main/java/com/example/spring/report/service/ReportService.java:219-230 | the fallback tip always saves, as the single value with priority 5 and category "건강 관심" |
| Reporting.GenerationFailure | src/main/java/com/example/spring/report/service/ReportService.java:45-97 | IllegalArgument iff the family is unknown; IllegalState iff already reported or no insights; Runtime iff the overall-summary call fails or the save meets a tip without content or priority |
| Reporting.AttachTips | src/main/java/com/example/spring/report/service/ReportService.java:85-95 | appends one fresh tip per value, each pointing at the report |
| Reporting.ReportService.GenerateWeeklyReport | src/main/java/com/example/spring/report/service/ReportService.java:45-102 | on each GenerationFailure nothing is written (the transaction rolls back); otherwise exactly one report with the period, the sections, the summary and the saved tips is stored |
| Reporting.ReportService.GenerateFromSections | src/main/java/com/example/spring/report/service/ReportService.java:68-97 | no insights -> IllegalState; failed summary -> Runtime; a tip with null content or priority -> Runtime; each with nothing written; else one report saved with those tips |
| Reporting.ReportService.SaveReport | src/main/java/com/example/spring/report/service/ReportService.java:82-97 | appends one fresh report holding exactly the given values |
| Reporting.ReportService.GetLatestReport | src/main/java/com/example/spring/report/service/ReportService.java:236-244 | unknown family -> IllegalArgument; no report -> IllegalState; else a newest report of the family |
| Reporting.ReportService.GetAllReports | src/main/java/com/example/spring/report/service/ReportService.java:249-256 | unknown family -> IllegalArgument; else a permutation of the family's reports (same multiset as the filter), newest first |
| Reporting.SecondGenerationRefused | src/main/java/com/example/spring/report/service/ReportService.java:58-97 | after a report is saved, a second call in the same week on a clock with the same sub-second part fails with IllegalState |
| Reporting.SubSecondClockPassesDuplicateCheck | src/main/java/com/example/spring/report/service/ReportService.java:53-60 | two calls whose clocks differ below the second compute different period bounds, so a saved report does not make the second call's duplicate check true |
| ReportScheduling.TallyPartition | src/main/java/com/example/spring/report/scheduler/ReportScheduler.java:38-58 | successes + failures + skips = number of families |
| ReportScheduling.NoSkipsAllCounted | src/main/java/com/example/spring/report/scheduler/ReportScheduler.java:38-58 | without skips every family is counted as a success or a failure |
| ReportScheduling.AttemptOutcomeCases | src/main/java/com/example/spring/report/scheduler/ReportScheduler.java:41-57 | an attempt succeeds iff GenerationFailure is None, fails with that failure otherwise, and is skipped iff the family is known and its week is already reported or has no insight |
| ReportScheduling.ReplayedOutcomes | src/main/java/com/example/spring/report/scheduler/ReportScheduler.java:41-57 | a replayed batch ties each outcome k to the attempt of family k on table k |
| ReportScheduling.ReportScheduler.RecordedAttempt | src/main/java/com/example/spring/report/scheduler/ReportScheduler.java:42-56 | one iteration: the outcome is recorded against the table it found, the table chain and the IllegalArgument exactness are extended |
| ReportScheduling.ReportScheduler.Attempt | src/main/java/com/example/spring/report/scheduler/ReportScheduler.java:41-57 | the outcome is AttemptOutcome on the table the attempt found; IllegalArgument iff the family is unknown; the table only grows, by one report iff the attempt succeeds |
| ReportScheduling.ReportScheduler.GenerateWeeklyReports | src/main/java/com/example/spring/report/scheduler/ReportScheduler.java:30-61 | one outcome per family in order, the k-th being AttemptOutcome of family k on the table attempt k found (Replayed); those tables chain, each a prefix of the next and one longer after a success (Chained); successCount + failCount = families - skipped; reports grow by successCount |
| ReportScheduling.ReportScheduler.RunManualGeneration | src/main/java/com/example/spring/report/scheduler/ReportScheduler.java:66-69 | exactly GenerateWeeklyReport's outcome; failures reach the caller |
| ReportAnalysis.HighRiskKeywordsOccur | src/main/java/com/example/spring/report/service/ReportAnalysisService.java:57-66 | some keyword contains some high-risk word as a substring |
| ReportAnalysis.AnalyzeHealthRisk | src/main/java/com/example/spring/report/service/ReportAnalysisService.java:26-52 | HIGH iff count >= 10 or a high-risk word occurs; MEDIUM iff not HIGH and count >= 5; LOW otherwise; advice follows the level; inputs echoed |
| ReportAnalysis.RiskMonotone | src/main/java/com/example/spring/report/service/ReportAnalysisService.java:31-43 | a larger mention count never lowers the risk level |
| ReportAnalysis.AdviceDeterminesLevel | src/main/java/com/example/spring/report/service/ReportAnalysisService.java:44-51 | two results have the same level iff the same color, iff the same recommendation |
| ReportAnalysis.TiredIsHighRisk | src/main/java/com/example/spring/report/service/ReportAnalysisService.java:31-37 | the single keyword "피곤" is HIGH at any count |
| ReportAnalysis.RatioStatus | src/main/java/com/example/spring/report/service/ReportAnalysisService.java:79-108 | POSITIVE iff positive > 60 % of the int total; else CONCERNED iff negative > 40 %; else NEUTRAL; ratios are 0 when that total is not positive |
| ReportAnalysis.AnalyzeSentiment | src/main/java/com/example/spring/report/service/ReportAnalysisService.java:72-126 | the status is forced to CONCERNED when the volume dropped by over 20 %, while emoji and summary keep the ratio branch; totalMessages is the int sum, the exact sum whenever that fits an int |
| ReportAnalysis.WrappedTotalReadsNeutral | src/main/java/com/example/spring/report/service/ReportAnalysisService.java:79-82 | counts (2147483647, 1, 0) wrap the total to -2147483648 and read NEUTRAL, where the exact total reads POSITIVE |
| Common.Wrap32 | src/main/java/com/example/spring/report/service/ReportAnalysisService.java:79 | Java int arithmetic: the result is an int congruent to the exact value modulo 2^32, equal to it when it fits |
| ReportAnalysis.EmojiMatchesStatusUnlessOverridden | src/main/java/com/example/spring/report/service/ReportAnalysisService.java:96-114 | the emoji matches the status iff no override happened or the ratio branch already said CONCERNED |
| ReportAnalysis.SmilingButConcerned | src/main/java/com/example/spring/report/service/ReportAnalysisService.java:111-114 | 7 positive messages after 100 give CONCERNED with the smiling emoji |
| ReportAnalysis.AnalyzeTrend | src/main/java/com/example/spring/report/service/ReportAnalysisService.java:132-163 | UP iff change > 10 %, DOWN iff change < -10 %, else STABLE; icon and description follow; inputs echoed |
| ReportAnalysis.TrendEdges | src/main/java/com/example/spring/report/service/ReportAnalysisService.java:133-153 | previous <= 0 is STABLE, and exactly +10 % and -10 % are STABLE |
| ReportAnalysis.TrendScaleInvariant | src/main/java/com/example/spring/report/service/ReportAnalysisService.java:133-135 | scaling both values by a positive factor keeps the direction, as long as neither int difference wraps |
| ReportAnalysis.RunLength | src/main/java/com/example/spring/report/service/ReportAnalysisService.java:173 | the longest prefix without whitespace |
| ReportAnalysis.TokensAreRuns | src/main/java/com/example/spring/report/service/ReportAnalysisService.java:173 | every token is a non-empty whitespace-free run |
| ReportAnalysis.TokensCoverText | src/main/java/com/example/spring/report/service/ReportAnalysisService.java:173 | the tokens, concatenated, are the text with its whitespace removed |
| ReportAnalysis.WordsMembers | src/main/java/com/example/spring/report/service/ReportAnalysisService.java:171-175 | a word is counted iff it is a token of Java length (UTF-16 code units) >= 2 in some message |
| Common.Utf16Length | src/main/java/com/example/spring/report/service/ReportAnalysisService.java:176 | String.length(): between the number of characters and twice that, equal to it iff no character lies outside the Basic Multilingual Plane |
| ReportAnalysis.TrendForCount | src/main/java/com/example/spring/report/service/ReportAnalysisService.java:197-203 | UP iff count > 15, DOWN iff count < 5, else STABLE |
| ReportAnalysis.KeywordExample | src/main/java/com/example/spring/report/service/ReportAnalysisService.java:169-203 | for ["aa bb bb", "cc aa"] the counts are aa:2, bb:2, cc:1, all tagged DOWN |
| ReportAnalysis.CountKeywords | src/main/java/com/example/spring/report/service/ReportAnalysisService.java:170-176 | the counting loop maps each word to its number of occurrences |
| ReportAnalysis.AnalyzeKeywordFrequency | src/main/java/com/example/spring/report/service/ReportAnalysisService.java:169-192 | at most 20 distinct entries, counts non-increasing, each the word's true count with its own trend; every omitted word counts no more than the last entry |
| ReportAnalysis.TopFrequenciesSpec | src/main/java/com/example/spring/report/service/ReportAnalysisService.java:178-191 | the sort-and-limit step keeps the largest counts, as above |
| Statistics.RoundDiv | src/main/java/com/example/spring/statistics/service/StatisticsService.java:184-189 | Math.round of a quotient: the nearest integer, halves rounded up |
| Statistics.DetermineTrend | src/main/java/com/example/spring/statistics/service/StatisticsService.java:82-86 | UP iff change > 10 %, DOWN iff change < -10 %, else STABLE; an empty previous period is STABLE |
| Statistics.TrendAgreesWithReportAnalysis | src/main/java/com/example/spring/statistics/service/StatisticsService.java:48-50 | where the difference fits an int, the statistics trend is the report analysis trend |
| Statistics.DescriptionKind | src/main/java/com/example/spring/statistics/service/StatisticsService.java:91-103 | the five description bands of the change percentage |
| Statistics.DescriptionAgreesWithTrend | src/main/java/com/example/spring/statistics/service/StatisticsService.java:82-103 | an increase text iff UP, a decrease text iff DOWN, "평소와 비슷" iff STABLE |
| Statistics.DailyDistribution | src/main/java/com/example/spring/statistics/service/StatisticsService.java:108-114 | keys are exactly the days with messages, each mapped to its count |
| Statistics.DailyDistributionSum | src/main/java/com/example/spring/statistics/service/StatisticsService.java:108-114 | the daily counts sum to the number of messages |
| Statistics.CalculateHourlyPattern | src/main/java/com/example/spring/statistics/service/StatisticsService.java:119-135 | exactly the 24 keys "00:00".."23:00" in order, each with its hour's count, summing to the message count |
| Statistics.FindPeakHour | src/main/java/com/example/spring/statistics/service/StatisticsService.java:140-145 | the earliest hour with the maximal count |
| Statistics.PeakHourOfPattern | src/main/java/com/example/spring/statistics/service/StatisticsService.java:140-145 | on an hourly pattern the "알 수 없음" fallback is unreachable, and no messages give "00:00" |
| Statistics.AveragePerDayTenths | src/main/java/com/example/spring/statistics/service/StatisticsService.java:39-45 | the average per day in tenths, 0 when periodDays <= 0 |
| Statistics.ChangePercentTenths | src/main/java/com/example/spring/statistics/service/StatisticsService.java:48-50 | the change percentage in tenths, 0 when the previous period is empty |
| Statistics.CalculateConversationStats | src/main/java/com/example/spring/statistics/service/StatisticsService.java:28-77 | periodDays = daysBetween + 1; totals are list sizes; trend, text, daily and hourly distributions and peak hour as above |
| Statistics.MinLength | src/main/java/com/example/spring/statistics/service/StatisticsService.java:164-167 | an actual content length in UTF-16 code units, no larger than any other |
| Statistics.MaxLength | src/main/java/com/example/spring/statistics/service/StatisticsService.java:169-172 | an actual content length in UTF-16 code units, no smaller than any other |
| Statistics.TotalBetweenMinAndMax | src/main/java/com/example/spring/statistics/service/StatisticsService.java:160-172 | size * min <= total characters <= size * max |
| Statistics.CalculateMessageStatistics | src/main/java/com/example/spring/statistics/service/StatisticsService.java:150-191 | all zeros on an empty list; otherwise the total UTF-16 length, min <= max, short answers (length <= 10 code units) at most the size, and the rounded average and ratio |
| Statistics.AverageWithinRange | src/main/java/com/example/spring/statistics/service/StatisticsService.java:174-184 | the rounded average length lies between the minimum and the maximum length |
| Recommendations.QuestionFor | src/main/java/com/example/spring/recommendation/service/RecommendationService.java:72-82 | a question exists iff the keyword is one of the five mapped ones |
| Recommendations.PriorityDeterminesCategory | src/main/java/com/example/spring/recommendation/service/RecommendationService.java:87-106 | priority is 10/5/3/1; 10 iff CONCERNED; two statuses share a priority iff they share a category |
| Recommendations.MappedTopicsSpec | src/main/java/com/example/spring/recommendation/service/RecommendationService.java:42-48 | topics are exactly the mapped keywords, in input order, duplicates kept |
| Recommendations.MappedTopicsCount | src/main/java/com/example/spring/recommendation/service/RecommendationService.java:42-48 | one keyword question per mapped topic |
| Recommendations.GenerateConversationTips | src/main/java/com/example/spring/recommendation/service/RecommendationService.java:25-67 | the first 5 distinct candidate questions (concern, keyword, topic), the mapped topics, and the status's priority and category |
| Recommendations.TipQuestionsShape | src/main/java/com/example/spring/recommendation/service/RecommendationService.java:51-59 | at most 5 questions, no duplicates, each a candidate |
| Recommendations.ConcernQuestionsFirst | src/main/java/com/example/spring/recommendation/service/RecommendationService.java:35-39 | for CONCERNED the two fixed concern questions come first |
| Recommendations.MatchProductToNeed | src/main/java/com/example/spring/recommendation/service/RecommendationService.java:141-178 | the first matching rule on the lower-cased need: joints (10), then sleep (9), then meals (8); none otherwise |
| Recommendations.MatchProductToKeyword | src/main/java/com/example/spring/recommendation/service/RecommendationService.java:183-212 | a suggestion iff the keyword is exactly 등산, 요리 or 책, with priority 7, 6 or 5 |
| Recommendations.NeedSuggestions | src/main/java/com/example/spring/recommendation/service/RecommendationService.java:116-122 | every need-derived suggestion has priority >= 8 |
| Recommendations.KeywordSuggestionsSpec | src/main/java/com/example/spring/recommendation/service/RecommendationService.java:124-129 | keyword suggestions extend the list, are added only if absent, and every matching keyword's suggestion ends up present |
| Recommendations.RecommendProducts | src/main/java/com/example/spring/recommendation/service/RecommendationService.java:112-136 | the first 5 of the stable sort by priority, descending |
| Recommendations.RecommendationsStable | src/main/java/com/example/spring/recommendation/service/RecommendationService.java:132-135 | within one priority the result keeps insertion order |
| Families.InviteCode | src/main/java/com/example/spring/family/domain/Family.java:73-77 | six decimal digits whose value is 100000 + draw |
| Families.InviteCodeRange | src/main/java/com/example/spring/family/domain/Family.java:73-77 | the value lies in [100000, 999999], and distinct draws give distinct codes |
| Families.Family.constructor | src/main/java/com/example/spring/family/domain/Family.java:64-68 | a new family has a valid invite code and no members |
| Families.Family.AddMember | src/main/java/com/example/spring/family/domain/Family.java:82-85 | appends a member built for this family; name and invite code unchanged |
| Families.Family.UpdateName | src/main/java/com/example/spring/family/domain/Family.java:90-92 | changes only the name |
| Families.Family.RegenerateInviteCode | src/main/java/com/example/spring/family/domain/Family.java:97-99 | a new code in the same range; nothing else changes |
| Families.FamilyMember.constructor | src/main/java/com/example/spring/family/domain/FamilyMember.java:65-71 | fields stored as given |
| Families.FamilyMember.UpdateNickname | src/main/java/com/example/spring/family/domain/FamilyMember.java:83-85 | changes only the nickname |
| Families.FamilyMember.IsChild | src/main/java/com/example/spring/family/domain/FamilyMember.java:90-96 | holds iff IsParent does not: exactly one of the two roles |
| Families.FindByUser | src/main/java/com/example/spring/family/repository/FamilyMemberRepository.java:24 | the Filter of the membership table on the user, in table order |
| Families.FindByFamily | src/main/java/com/example/spring/family/repository/FamilyMemberRepository.java:29 | the family's memberships, each as often as in the table, as a subsequence of the table |
| Families.RosterIsFindByFamily | src/main/java/com/example/spring/family/repository/FamilyMemberRepository.java:29 | the roster (the rows with the family, built row by row) is exactly what findByFamily returns |
| Families.RosterOfNewFamily | src/main/java/com/example/spring/family/repository/FamilyMemberRepository.java:29 | a family no row points at has no memberships |
| Families.RosterAppend | src/main/java/com/example/spring/family/repository/FamilyMemberRepository.java:29 | a saved row joins the end of its own family's roster and changes no other family's |
| Families.RosterConcat | src/main/java/com/example/spring/family/repository/FamilyMemberRepository.java:29 | the roster of two table pieces is their rosters concatenated |
| Families.RosterRemoveOther | src/main/java/com/example/spring/family/repository/FamilyMemberRepository.java:29 | deleting a row of another family leaves this family's roster unchanged |
| Families.RosterRemoveOwn | src/main/java/com/example/spring/family/repository/FamilyMemberRepository.java:29 | deleting a row of this family removes exactly that row, at the position it held, from the roster |
| Families.DepartedNotListed | src/main/java/com/example/spring/family/domain/FamilyMember.java:19-21 | with unique (user, family) pairs a deleted row is in no family's roster afterwards |
| Families.FindByFamilyAndRole | src/main/java/com/example/spring/family/repository/FamilyMemberRepository.java:34 | the memberships with both the family and the role, each as often as in the table, as a subsequence of the table |
| Families.ParentsAndChildrenPartition | src/main/java/com/example/spring/family/repository/FamilyMemberRepository.java:29-56 | parents and children together are the family's members, as a multiset |
| Families.IndexOfMembership | src/main/java/com/example/spring/family/repository/FamilyMemberRepository.java:39 | the first row of the (user, family) pair, or none |
| Families.FindByUserAndFamilyUnique | src/main/java/com/example/spring/family/repository/FamilyMemberRepository.java:39-44 | exists iff found; with unique pairs the found row is the only one |
| Families.FindFamilyById | src/main/java/com/example/spring/family/service/FamilyService.java:133-134 | FindFirst on the id: a family with the id, or none has it |
| Common.FindFirst | src/main/java/com/example/spring/family/service/FamilyService.java:133-134 | an element satisfying the predicate, none iff no element does |
| Common.FindFirstIsFirst | src/main/java/com/example/spring/auth/service/AuthService.java:149-153 | what FindFirst returns sits at an index before which no element satisfies the predicate |
| Families.FindByInviteCode | src/main/java/com/example/spring/family/repository/FamilyRepository.java:18 | a family with the code, or none has it |
| Families.FamilyService.CreateFamily | src/main/java/com/example/spring/family/service/FamilyService.java:38-65 | unknown user -> IllegalArgument, nothing written; a drawn invite code that another family already holds -> Runtime (the unique-column violation), nothing written; else a new family whose only member is the creator, with the role and nickname, and invite codes stay unique |
| Families.FamilyService.JoinFamily | src/main/java/com/example/spring/family/service/FamilyService.java:73-102 | unknown user or code -> IllegalArgument; already a member -> IllegalState; either way nothing changes; else exactly one membership is appended to the found family; no other family's members change, and no family's name or invite code |
| Families.FamilyService.GetMyFamilies | src/main/java/com/example/spring/family/service/FamilyService.java:109-121 | one entry per membership of the user, the i-th being the family of the user's i-th membership in table order |
| Families.FamilyService.GetFamily | src/main/java/com/example/spring/family/service/FamilyService.java:129-144 | unknown family or user -> IllegalArgument; not a member -> IllegalState; else the family, whose member list (under the service invariant) is exactly what findByFamily returns for it |
| Families.FamilyService.LeaveFamily | src/main/java/com/example/spring/family/service/FamilyService.java:151-167 | unknown family or user -> IllegalArgument; not a member -> IllegalState; either way nothing changes; else exactly that row is deleted from the table, and the family's member list loses exactly that membership at its position (orphan removal, Family.java:47-48), so the departed user is no longer listed; no other family's list, and no name or invite code, changes; the invariant tying every family's list to the table holds after |
| Families.FamilyService.Leave | src/main/java/com/example/spring/family/domain/Family.java:47-48 | the delete plus orphan removal: the table loses row k and the family's list loses that row at its position, keeping the invariant |
| Families.JoinKeepsPairsUnique | src/main/java/com/example/spring/family/domain/FamilyMember.java:19-21 | a join after the existence check keeps (user, family) pairs unique |
| Families.LeaveKeepsPairsUnique | src/main/java/com/example/spring/family/domain/FamilyMember.java:19-21 | removing a membership keeps pairs unique |
| Families.JoinThenLeaveRestores | src/main/java/com/example/spring/family/service/FamilyService.java:84-164 | join followed by leave restores the membership table |
| Auth.User.constructor | src/main/java/com/example/spring/auth/service/AuthService.java:101-108 | a new user has no refresh token |
| Auth.User.UpdateRefreshToken | src/main/java/com/example/spring/user/domain/User.java:51-53 | stores exactly its argument, null included; nothing else changes |
| Auth.User.UpdateProfile | src/main/java/com/example/spring/user/domain/User.java:58-65 | replaces nickname and image URL independently, each only when given; (null, null) changes nothing |
| Auth.User.UpdateRole | src/main/java/com/example/spring/user/domain/User.java:70-72 | sets only the role |
| Auth.FindById | src/main/java/com/example/spring/auth/service/AuthService.java:140-144 | FindFirst on the id: a user with the id, or none has it |
| Auth.FindByKakaoId | src/main/java/com/example/spring/auth/service/AuthService.java:149-153 | FindFirst on the Kakao id: a user with it, or none has it |
| Auth.FindByRefreshToken | src/main/java/com/example/spring/auth/service/AuthService.java:66-69 | a user holding the token, or none does |
| Auth.AuthService.CreateUser | src/main/java/com/example/spring/auth/service/AuthService.java:101-115 | a fresh user: kakaoId and nickname the username, email username + "@example.com", the given role |
| Auth.AuthService.FindOrCreateUser | src/main/java/com/example/spring/auth/service/AuthService.java:31-32 | the existing user with that Kakao id, unchanged, or a newly created one |
| Auth.AuthService.Login | src/main/java/com/example/spring/auth/service/AuthService.java:28-55 | an existing user keeps their role; isNewUser iff the stored token was null; the stored token becomes the returned one; no other user's token changes; no existing user's role, nickname or profile image changes |
| Auth.AuthService.RefreshToken | src/main/java/com/example/spring/auth/service/AuthService.java:60-81 | invalid token -> InvalidToken; unknown token -> UserNotFound; both change nothing; else the holder's token is rotated to the returned one; no role, nickname or profile image changes |
| Auth.AuthService.Logout | src/main/java/com/example/spring/auth/service/AuthService.java:86-96 | unknown user -> UserNotFound; else the user's token becomes null, so no token finds them again; other users keep theirs; no role, nickname or profile image changes |
| Auth.AuthService.GetUserById | src/main/java/com/example/spring/auth/service/AuthService.java:140-144 | the user with the id, else UserNotFound |
| Auth.AuthService.GetUserByKakaoId | src/main/java/com/example/spring/auth/service/AuthService.java:149-153 | the user with the Kakao id, else UserNotFound |
| Auth.AuthService.UpdateUserRole | src/main/java/com/example/spring/auth/service/AuthService.java:158-165 | unknown user -> UserNotFound; else only that user's role changes; no token, nickname or profile image changes |
| KakaoUserInfos.GetEmail | src/main/java/com/example/spring/oauth/dto/KakaoUserInfo.java:79-84 | the account email when account and email are present, else null |
| KakaoUserInfos.GetNickname | src/main/java/com/example/spring/oauth/dto/KakaoUserInfo.java:89-98 | the profile nickname, else the properties nickname, else "Unknown"; never null |
| KakaoUserInfos.GetProfileImageUrl | src/main/java/com/example/spring/oauth/dto/KakaoUserInfo.java:103-112 | the profile image URL, else the properties image, else null |
| KakaoUserInfos.FallbacksAreIndependent | src/main/java/com/example/spring/oauth/dto/KakaoUserInfo.java:89-112 | nickname and image fall back separately: a profile without a nickname still supplies its image |
| GeminiResponses.GetFirstText | src/main/java/com/example/spring/ai/gemini/dto/GeminiResponse.java:41-54 | "" for missing or empty candidates, content, parts or text; otherwise the first part's text; never null |
| GeminiResponses.OnlyFirstPartConsulted | src/main/java/com/example/spring/ai/gemini/dto/GeminiResponse.java:41-54 | the result depends only on candidates[0].parts[0] |

## Left out

- Transport to the Gemini model, the prompt texts and the JSON parsing of the
  replies are left out. Each AI call plus its parse is a function parameter
  returning `Option`, where `None` means the call or the parse threw. For
  the tips, a field missing from a parsed tip does not throw. It is a null
  field of that tip (TipReply), and the save then refuses it
  (Reporting.SavedTips).
- Floating point is not modelled. Ratios and percentages are compared
  with thresholds by integer cross-multiplication; for the 60 %, 40 %,
  -20 % and ±10 % thresholds the doubles land on the same side, exact
  ratios included. Rounded values (`Math.round(x * 10) / 10`) are kept as
  integers in tenths, rounded from the exact quotient; the code rounds a
  double product instead, which can fall on the other side of a half (the
  lines below). The `%.1f` renderings are kept as an opaque `percentText`
  parameter.
- Statistics.ChangePercentTenths: rounds the exact change, so it can be one
  tenth above the code's value at a half. The double product
  `(c - p) / p * 100 * 10` lies just below the half: 121 against 80 gives
  51.2 in the code and 51.3 here; 69 against 80 gives -13.8 and -13.7.
- Statistics.CalculateConversationStats: its changePercent is
  ChangePercentTenths, with the same difference at halves.
- Statistics.CalculateMessageStatistics: shortAnswerRatio is rounded from
  the exact ratio, so 23 short answers of 80 give 28.7 in the code and 28.8
  here, and 29 of 400 give 7.2 and 7.3. The average length is the exact
  quotient rounded, as the code's double gives.
- Java `int` arithmetic is modelled (Common.Wrap32) where a sum or
  difference of int arguments can leave the int range: the sentiment total
  and the change in AnalyzeSentiment and AnalyzeTrend. Elsewhere the int
  values are list sizes and sums of lengths, kept as exact integers; the
  model does not capture their wrap-around past 2^31 - 1.
- Reporting.PeriodStart and Reporting.PeriodEnd keep the nanoseconds of
  `now`, as `withSecond` leaves them. Every other time in the model is whole
  seconds: insight, alert and report timestamps, and the `now` of the other
  services.
- Scheduling is not modelled: the `@Scheduled` cron triggers, the controllers,
  the HTTP layer and logging. The batches are plain methods.
- The iteration order of `Map.of` over the three risk categories is left open.
  It is the `order` parameter, constrained only to be a permutation of the
  three categories. Every property is proved for every order.
- For equal counts, the keyword-frequency result does not fix the HashMap
  order. It keeps the first-seen order of the words.
- The DTO mappers, ConversationService and ConversationRepository are
  plumbing and are not part of this model.
- The JWT provider is not part of this model. Tokens are parameters, and token
  validation is a `valid` flag.
- `Random` in the invite code is a `draw` parameter in [0, 900000).
- JPA auditing is not modelled. createdAt is the `now` of the saving call.
  Spring's `@Transactional` rollback is modelled only where it matters: a
  failed `analyzeFamily` restores the three insight tables, because the
  method is transactional. `AnalyzeText` shows the partial writes the three
  steps make before that rollback. Every other failing operation fails
  before its first write.
- `KakaoUserInfo.getKakaoIdAsString` is a plain `String.valueOf` and is not
  modelled.
- Statistics.CalculateMessageStatistics: on an empty list the builder leaves
  shortAnswerCount and shortAnswerRatio at their defaults, which the model
  gives as 0.
- The keyword-frequency trend tags a count below 5 as DOWN, so
  ["aa bb bb", "cc aa"] tags all three words DOWN, as
  ReportAnalysis.KeywordExample shows.
- Common.ToLower: lower-cases A-Z only. Java's `toLowerCase` also maps
  letters outside ASCII, a few of them (the Kelvin sign, the dotted capital
  I) to ASCII letters; the model leaves every non-ASCII character as it is.
- Families.Family.AddMember: requires a member whose family is already this
  one. The member's back-reference is fixed when it is built
  (`FamilyMember.family` is a constant). `assignFamily` is package-private,
  and its only caller is `addMember`, which the service always calls on a
  member it has just built for the same family. So re-pointing a member at
  another family is not modelled.
- The member list of a family is modelled as what the persistence context
  shows after each service call: after leaveFamily's delete, orphan
  removal leaves the row out of the family's list
  (FamilyService.Leave). When the list is flushed or reloaded within the
  transaction is not modelled.
