/**
 * Emergency detection (alert/service/EmergencyAlertService.java).
 *
 * A run for one family scans the family's messages of the last 24 hours
 * once per keyword category and raises one alert per category that
 * matched, unless an alert of that category was raised in the last hour;
 * then it raises a NO_RESPONSE alert when some conversation of the family
 * has been silent for more than 48 hours, unless one was raised in the
 * last 24 hours.
 *
 * The AI port is a function from the category and the matched message
 * lines to the reply text, None when the call fails. The iteration order of
 * the keyword table (a Map.of, whose order is unspecified) is a parameter.
 */
module EmergencyAlertDetection {
  import opened Common
  import opened Conversations
  import opened EmergencyAlerts

  const AiFallback: string := "AI 분석 실패. 수동 확인 필요."
  const NoResponseTitle: string := "🚨 부모님 무응답 알림"
  const NoResponseKeywords: string := "무응답"
  const NoResponseAnalysis: string := "48시간 이상 대화 기록이 없음"
  const NoResponseSeverity: int := 7

  /** How far back the keyword scan looks. */
  const ScanWindow: int := 24 * SecondsPerHour
  /** A keyword alert is not repeated within this time. */
  const KeywordSuppression: int := SecondsPerHour
  /** Silence longer than this raises NO_RESPONSE. */
  const SilenceLimit: int := 48 * SecondsPerHour
  /** A NO_RESPONSE alert is not repeated within this time. */
  const NoResponseSuppression: int := 24 * SecondsPerHour

  /** The categories that have a keyword list. */
  predicate IsKeywordCategory(t: AlertType)
  {
    t != NO_RESPONSE
  }

  function RiskKeywords(t: AlertType): seq<string>
    requires IsKeywordCategory(t)
  {
    match t
    case HEALTH_EMERGENCY =>
      ["응급실", "입원", "119", "구급차", "쓰러졌", "낙상", "넘어졌", "호흡곤란", "가슴통증", "의식불명", "골절"]
    case SAFETY_RISK =>
      ["도둑", "사고", "화재", "가스", "도난", "위험", "112"]
    case MENTAL_CRISIS =>
      ["죽고싶", "자살", "포기", "살기싫", "외롭", "우울", "힘들"]
  }

  /** An iteration order of the keyword table: each keyword category once. */
  predicate CategoryOrder(order: seq<AlertType>)
  {
    |order| == 3 && (forall i | 0 <= i < 3 :: IsKeywordCategory(order[i]))
    && order[0] != order[1] && order[0] != order[2] && order[1] != order[2]
  }

  // ------------------------------------------------------ keyword matching

  /**
   * The first keyword, in list order, whose lower-cased form occurs in the
   * (already lower-cased) content.
   */
  function FirstMatch(content: string, keywords: seq<string>): (r: Option<string>)
    ensures r.Some? <==> exists i :: 0 <= i < |keywords| && Contains(content, ToLower(keywords[i]))
    ensures r.Some? ==> exists i :: 0 <= i < |keywords| && keywords[i] == r.value
                          && Contains(content, ToLower(keywords[i]))
                          && forall j | 0 <= j < i :: !Contains(content, ToLower(keywords[j]))
  {
    if keywords == [] then None
    else if Contains(content, ToLower(keywords[0])) then Some(keywords[0])
    else
      var r := FirstMatch(content, keywords[1..]);
      assert forall i | 1 <= i < |keywords| :: keywords[i] == keywords[1..][i - 1];
      if r.Some? then
        var i :| 0 <= i < |keywords[1..]| && keywords[1..][i] == r.value
                 && Contains(content, ToLower(keywords[1..][i]))
                 && forall j | 0 <= j < i :: !Contains(content, ToLower(keywords[1..][j]));
        assert keywords[i + 1] == r.value && forall j | 0 <= j < i + 1 :: !Contains(content, ToLower(keywords[j]));
        r
      else r
  }

  /** The keyword a message counts for in one category; none for a null content. */
  function Hit(m: Message, keywords: seq<string>): (r: Option<string>)
    ensures r.Some? ==> m.content.Some?
  {
    if m.content.None? then None else FirstMatch(ToLower(m.content.value), keywords)
  }

  /** "[yyyy-MM-dd] content": the line a matching message contributes to the AI prompt. */
  function MatchedLine(m: Message): string
    requires m.content.Some?
  {
    "[" + IsoDate(DayOf(m.sentAt)) + "] " + m.content.value
  }

  /** The detectedKeywords list the scan builds: one keyword per matching message. */
  function DetectedKeywords(messages: seq<Message>, keywords: seq<string>): seq<string>
  {
    if messages == [] then []
    else
      var m := messages[|messages| - 1];
      DetectedKeywords(messages[..|messages| - 1], keywords) + (if Hit(m, keywords).Some? then [Hit(m, keywords).value] else [])
  }

  /** The matchedMessages list the scan builds: one line per matching message. */
  function MatchedMessages(messages: seq<Message>, keywords: seq<string>): seq<string>
  {
    if messages == [] then []
    else
      var m := messages[|messages| - 1];
      MatchedMessages(messages[..|messages| - 1], keywords) + (if Hit(m, keywords).Some? then [MatchedLine(m)] else [])
  }

  /** The messages that count for some keyword of the category, in order. */
  function MatchingMessages(messages: seq<Message>, keywords: seq<string>): seq<Message>
  {
    Filter(messages, (m: Message) => Hit(m, keywords).Some?)
  }

  /**
   * The two lists the scan builds grow together: entry i of each comes from
   * the i-th matching message. So the keyword count handed to the severity
   * is the number of matching messages, repeated keywords included.
   */
  lemma DetectionLists(messages: seq<Message>, keywords: seq<string>)
    ensures |DetectedKeywords(messages, keywords)| == |MatchingMessages(messages, keywords)|
    ensures |MatchedMessages(messages, keywords)| == |MatchingMessages(messages, keywords)|
    ensures forall i | 0 <= i < |MatchingMessages(messages, keywords)| ::
              var m := MatchingMessages(messages, keywords)[i];
              Hit(m, keywords).Some?
              && DetectedKeywords(messages, keywords)[i] == Hit(m, keywords).value
              && MatchedMessages(messages, keywords)[i] == MatchedLine(m)
  {
    DetectedKeywordsAt(messages, keywords);
    MatchedMessagesAt(messages, keywords);
  }

  /** The matching messages of a non-empty list: those of its front, then the last one if it matches. */
  lemma MatchingMessagesStep(messages: seq<Message>, keywords: seq<string>)
    requires messages != []
    ensures var m := messages[|messages| - 1];
            MatchingMessages(messages, keywords)
            == MatchingMessages(messages[..|messages| - 1], keywords) + (if Hit(m, keywords).Some? then [m] else [])
  {
    var front, m := messages[..|messages| - 1], messages[|messages| - 1];
    assert messages == front + [m];
    FilterAppend(front, [m], (x: Message) => Hit(x, keywords).Some?);
  }

  /** Entry i of detectedKeywords is the keyword the i-th matching message counts for. */
  lemma {:induction false} DetectedKeywordsAt(messages: seq<Message>, keywords: seq<string>)
    ensures |DetectedKeywords(messages, keywords)| == |MatchingMessages(messages, keywords)|
    ensures forall i | 0 <= i < |MatchingMessages(messages, keywords)| ::
              Hit(MatchingMessages(messages, keywords)[i], keywords).Some?
              && DetectedKeywords(messages, keywords)[i] == Hit(MatchingMessages(messages, keywords)[i], keywords).value
    decreases |messages|
  {
    if messages != [] {
      var front, m := messages[..|messages| - 1], messages[|messages| - 1];
      DetectedKeywordsAt(front, keywords);
      MatchingMessagesStep(messages, keywords);
    }
  }

  /** Entry i of matchedMessages is the prompt line of the i-th matching message. */
  lemma {:induction false} MatchedMessagesAt(messages: seq<Message>, keywords: seq<string>)
    ensures |MatchedMessages(messages, keywords)| == |MatchingMessages(messages, keywords)|
    ensures forall i | 0 <= i < |MatchingMessages(messages, keywords)| ::
              Hit(MatchingMessages(messages, keywords)[i], keywords).Some?
              && MatchedMessages(messages, keywords)[i] == MatchedLine(MatchingMessages(messages, keywords)[i])
    decreases |messages|
  {
    if messages != [] {
      var front, m := messages[..|messages| - 1], messages[|messages| - 1];
      MatchedMessagesAt(front, keywords);
      MatchingMessagesStep(messages, keywords);
    }
  }

  /** The loop of detectHighRiskKeywords for one category. */
  method ScanCategory(messages: seq<Message>, keywords: seq<string>) returns (detectedKeywords: seq<string>, matchedMessages: seq<string>)
    ensures detectedKeywords == DetectedKeywords(messages, keywords)
    ensures matchedMessages == MatchedMessages(messages, keywords)
  {
    detectedKeywords := [];
    matchedMessages := [];
    for i := 0 to |messages|
      invariant detectedKeywords == DetectedKeywords(messages[..i], keywords)
      invariant matchedMessages == MatchedMessages(messages[..i], keywords)
    {
      var message := messages[i];
      assert messages[..i + 1][..i] == messages[..i];
      if message.content.None? {
        continue;
      }
      var keyword := ScanMessage(ToLower(message.content.value), keywords);
      if keyword.Some? {
        detectedKeywords := detectedKeywords + [keyword.value];
        matchedMessages := matchedMessages + ["[" + IsoDate(DayOf(message.sentAt)) + "] " + message.content.value];
      }
    }
    assert messages[..|messages|] == messages;
  }

  /** The inner keyword loop for one message: it stops at the first keyword found. */
  method ScanMessage(content: string, keywords: seq<string>) returns (keyword: Option<string>)
    ensures keyword == FirstMatch(content, keywords)
  {
    var j := 0;
    while j < |keywords|
      invariant 0 <= j <= |keywords|
      invariant FirstMatch(content, keywords) == FirstMatch(content, keywords[j..])
    {
      if Contains(content, ToLower(keywords[j])) {
        return Some(keywords[j]);
      }
      assert keywords[j..][1..] == keywords[j + 1..];
      j := j + 1;
    }
    return None;
  }

  // ------------------------------------------------------ alert contents

  function BaseSeverity(t: AlertType): int
  {
    match t
    case HEALTH_EMERGENCY => 9
    case SAFETY_RISK => 8
    case MENTAL_CRISIS => 7
    case NO_RESPONSE => 7
  }

  /** min(10, base + keywordCount / 2). */
  function CalculateSeverity(t: AlertType, keywordCount: nat): (s: int)
    ensures BaseSeverity(t) <= s <= 10
    ensures keywordCount <= 1 ==> s == BaseSeverity(t)
    ensures s == 10 <==> BaseSeverity(t) + keywordCount / 2 >= 10
    ensures s < 10 ==> s == BaseSeverity(t) + keywordCount / 2
  {
    var v := BaseSeverity(t) + keywordCount / 2;
    if 10 <= v then 10 else v
  }

  function AlertTitle(t: AlertType): string
  {
    match t
    case HEALTH_EMERGENCY => "🚨 건강 긴급 상황 감지"
    case SAFETY_RISK => "⚠️ 안전 위험 감지"
    case MENTAL_CRISIS => "💔 심리적 위기 감지"
    case NO_RESPONSE => NoResponseTitle
  }

  /** The keyword list shown in an alert: the first three, comma separated. */
  function KeywordList(keywords: seq<string>): string
  {
    Join(Take(keywords, 3), ", ")
  }

  function AlertContent(t: AlertType, keywords: seq<string>, messageCount: int): string
  {
    match t
    case HEALTH_EMERGENCY =>
      "최근 대화에서 건강 관련 긴급 키워드가 감지되었습니다.\n감지된 키워드: " + KeywordList(keywords)
      + "\n관련 메시지: " + IntToString(messageCount) + "건\n\n즉시 부모님께 연락하여 상황을 확인해주세요."
    case SAFETY_RISK =>
      "최근 대화에서 안전 위험 키워드가 감지되었습니다.\n감지된 키워드: " + KeywordList(keywords)
      + "\n관련 메시지: " + IntToString(messageCount) + "건\n\n즉시 부모님께 연락하여 안전을 확인해주세요."
    case MENTAL_CRISIS =>
      "최근 대화에서 심리적 어려움을 나타내는 표현이 감지되었습니다.\n감지된 키워드: " + KeywordList(keywords)
      + "\n관련 메시지: " + IntToString(messageCount) + "건\n\n부모님의 마음 상태를 확인하고 위로해주세요."
    case NO_RESPONSE => "긴급 상황이 감지되었습니다. 부모님께 연락해주세요."
  }

  /** Only the first three keywords reach the alert text. */
  lemma ContentShowsFirstThreeKeywords(t: AlertType, a: seq<string>, b: seq<string>, messageCount: int)
    requires Take(a, 3) == Take(b, 3)
    ensures AlertContent(t, a, messageCount) == AlertContent(t, b, messageCount)
  {
  }

  /** The AI reply, or the fixed fallback when the call failed. */
  function AiAnalysis(reply: Option<string>): string
  {
    if reply.Some? then reply.value else AiFallback
  }

  /** Whole hours from `from` to `to`, truncated toward zero (Duration.toHours). */
  function HoursBetween(from: int, to: int): (h: int)
    ensures from <= to ==> 0 <= h && h * SecondsPerHour <= to - from < (h + 1) * SecondsPerHour
  {
    if from <= to then (to - from) / SecondsPerHour else -((from - to) / SecondsPerHour)
  }

  function NoResponseContent(hours: int): string
  {
    "부모님과 " + IntToString(hours) + "시간 동안 대화가 없었습니다. 안부를 확인해보세요."
  }

  /** The alert createEmergencyAlert saves. */
  function KeywordAlert(familyId: int, t: AlertType, detected: seq<string>, matched: seq<string>,
                        ai: (AlertType, seq<string>) -> Option<string>, now: int): AlertRecord
  {
    AlertRecord(familyId, t, AlertTitle(t), AlertContent(t, detected, |matched|),
                CalculateSeverity(t, |detected|), Join(detected, ", "), AiAnalysis(ai(t, matched)), now)
  }

  /** The alert createNoResponseAlert saves. */
  function NoResponseAlert(familyId: int, lastMessageTime: int, now: int): AlertRecord
  {
    AlertRecord(familyId, NO_RESPONSE, NoResponseTitle, NoResponseContent(HoursBetween(lastMessageTime, now)),
                NoResponseSeverity, NoResponseKeywords, NoResponseAnalysis, now)
  }

  // ---------------------------------------------- what a run adds, as values

  /**
   * The alert category `t` raises from these messages when it is not
   * suppressed: None when no message matched, and for NO_RESPONSE, which
   * has no keyword list (CategoryAlertSpec says what it holds).
   */
  function CategoryAlert(familyId: int, messages: seq<Message>, t: AlertType,
                         ai: (AlertType, seq<string>) -> Option<string>, now: int): (r: Option<AlertRecord>)
    ensures r.Some? ==> IsKeywordCategory(t) && r.value.alertType == t
    ensures r.Some? ==> r.value.familyId == familyId && r.value.createdAt == now
  {
    if !IsKeywordCategory(t) then None
    else
      var detected := DetectedKeywords(messages, RiskKeywords(t));
      if detected == [] then None
      else Some(KeywordAlert(familyId, t, detected, MatchedMessages(messages, RiskKeywords(t)), ai, now))
  }

  /**
   * A keyword category has an alert to raise exactly when some message
   * matched one of its keywords. The severity grows with the number of
   * matching messages (repeated keywords count again) and stays between the
   * category's base and 10; the analysis is the AI reply on the matched
   * lines, or the fallback text when the call failed, which does not stop
   * the alert.
   */
  lemma CategoryAlertSpec(familyId: int, messages: seq<Message>, t: AlertType,
                          ai: (AlertType, seq<string>) -> Option<string>, now: int)
    requires IsKeywordCategory(t)
    ensures var r := CategoryAlert(familyId, messages, t, ai, now);
            var matching := MatchingMessages(messages, RiskKeywords(t));
            (r.Some? <==> matching != [])
            && (r.Some? ==> r.value.severity == CalculateSeverity(t, |matching|)
                            && BaseSeverity(t) <= r.value.severity <= 10
                            && r.value.title == AlertTitle(t)
                            && r.value.aiAnalysis == AiAnalysis(ai(t, MatchedMessages(messages, RiskKeywords(t)))))
  {
    DetectionLists(messages, RiskKeywords(t));
  }

  /** The alert each category of `order` would raise, position by position. */
  function Candidates(familyId: int, messages: seq<Message>, order: seq<AlertType>,
                      ai: (AlertType, seq<string>) -> Option<string>, now: int): (r: seq<Option<AlertRecord>>)
    ensures TypedCandidates(order, r)
    decreases |order|
  {
    if order == [] then []
    else [CategoryAlert(familyId, messages, order[0], ai, now)] + Candidates(familyId, messages, order[1..], ai, now)
  }

  lemma {:induction false} CandidatesAt(familyId: int, messages: seq<Message>, order: seq<AlertType>,
                                        ai: (AlertType, seq<string>) -> Option<string>, now: int, k: int)
    requires 0 <= k < |order|
    ensures Candidates(familyId, messages, order, ai, now)[k] == CategoryAlert(familyId, messages, order[k], ai, now)
    decreases k
  {
    if k > 0 {
      CandidatesAt(familyId, messages, order[1..], ai, now, k - 1);
    }
  }

  /** Candidates aligned with the categories: the one at position i, if any, has type order[i]. */
  ghost predicate TypedCandidates(order: seq<AlertType>, candidates: seq<Option<AlertRecord>>)
  {
    |candidates| == |order|
    && forall i | 0 <= i < |order| :: candidates[i].Some? ==> candidates[i].value.alertType == order[i]
  }

  /** What scanning category `t` adds: its candidate, unless suppressed. */
  function KeywordStep(store: seq<AlertRecord>, familyId: int, t: AlertType, candidate: Option<AlertRecord>, now: int): seq<AlertRecord>
  {
    if candidate.Some? && !RecentAlertExists(store, familyId, t, now - KeywordSuppression)
    then [candidate.value]
    else []
  }

  /**
   * The alerts detectHighRiskKeywords adds, category by category in the
   * table's iteration order, each suppression check seeing the alerts added
   * before it; candidates[i] is the alert category order[i] would raise.
   */
  function KeywordPhase(store: seq<AlertRecord>, familyId: int, order: seq<AlertType>,
                        candidates: seq<Option<AlertRecord>>, now: int): seq<AlertRecord>
    requires |candidates| == |order|
    decreases |order|
  {
    if order == [] then []
    else
      var created := KeywordStep(store, familyId, order[0], candidates[0], now);
      created + KeywordPhase(store + created, familyId, order[1..], candidates[1..], now)
  }

  lemma KeywordPhaseAt(store: seq<AlertRecord>, familyId: int, order: seq<AlertType>,
                       candidates: seq<Option<AlertRecord>>, now: int, k: int)
    requires |candidates| == |order| && 0 <= k < |order|
    ensures var created := KeywordStep(store, familyId, order[k], candidates[k], now);
            KeywordPhase(store, familyId, order[k..], candidates[k..], now)
            == created + KeywordPhase(store + created, familyId, order[k + 1..], candidates[k + 1..], now)
  {
    assert order[k..][1..] == order[k + 1..];
    assert candidates[k..][1..] == candidates[k + 1..];
  }

  /**
   * The alerts detectNoResponse adds, given the send time of the last
   * message of each of the family's conversations (None when it has none).
   */
  function NoResponsePhase(store: seq<AlertRecord>, familyId: int, lastTimes: seq<Option<int>>, now: int): seq<AlertRecord>
    decreases |lastTimes|
  {
    if lastTimes == [] then []
    else
      var created := NoResponseStep(store, familyId, lastTimes[0], now);
      created + NoResponsePhase(store + created, familyId, lastTimes[1..], now)
  }

  /** What checking one conversation adds, given the send time of its last message. */
  function NoResponseStep(store: seq<AlertRecord>, familyId: int, lastTime: Option<int>, now: int): seq<AlertRecord>
  {
    if lastTime.Some? && lastTime.value < now - SilenceLimit
       && !RecentAlertExists(store, familyId, NO_RESPONSE, now - NoResponseSuppression)
    then [NoResponseAlert(familyId, lastTime.value, now)]
    else []
  }

  lemma NoResponsePhaseAt(store: seq<AlertRecord>, familyId: int, lastTimes: seq<Option<int>>, now: int, k: int)
    requires 0 <= k < |lastTimes|
    ensures var created := NoResponseStep(store, familyId, lastTimes[k], now);
            NoResponsePhase(store, familyId, lastTimes[k..], now)
            == created + NoResponsePhase(store + created, familyId, lastTimes[k + 1..], now)
  {
    assert lastTimes[k..][1..] == lastTimes[k + 1..];
  }


  /** The family's conversations, in table order. */
  function FamilyConversations(conversations: seq<Conversation>, familyId: int): seq<Conversation>
  {
    Filter(conversations, (c: Conversation) => c.familyId == familyId)
  }

  /**
   * The latest send time among the conversation's rows of the message
   * table, None when it has none.
   */
  function LastTime(table: seq<Message>, c: Conversation): Option<int>
    reads table
    decreases |table|
  {
    if table == [] then None
    else
      var rest := LastTime(table[1..], c);
      if table[0].conversation != c then rest
      else if rest.Some? && rest.value >= table[0].sentAt then rest
      else Some(table[0].sentAt)
  }

  /** LastTime is the send time of a row of the conversation, and no row of it is later. */
  lemma {:induction false} LastTimeIsLatest(table: seq<Message>, c: Conversation)
    ensures LastTime(table, c).None? <==> forall i | 0 <= i < |table| :: table[i].conversation != c
    ensures LastTime(table, c).Some? ==>
              (exists i :: 0 <= i < |table| && table[i].conversation == c && table[i].sentAt == LastTime(table, c).value)
              && forall i | 0 <= i < |table| :: table[i].conversation == c ==> table[i].sentAt <= LastTime(table, c).value
    decreases |table|
  {
    if table != [] {
      LastTimeIsLatest(table[1..], c);
      var r := LastTime(table, c);
      var rest := LastTime(table[1..], c);
      forall i | 1 <= i < |table| ensures table[i] == table[1..][i - 1] { }
      if rest.Some? {
        var j :| 0 <= j < |table[1..]| && table[1..][j].conversation == c && table[1..][j].sentAt == rest.value;
        assert table[j + 1].sentAt == rest.value;
      }
    }
  }

  /** The repository query for the last message agrees with LastTime. */
  lemma LastMessageTime(table: seq<Message>, c: Conversation)
    ensures var last := FindLastMessageByConversation(table, c);
            LastTime(table, c) == (if last.Some? then Some(last.value.sentAt) else None)
  {
    var last := FindLastMessageByConversation(table, c);
    var x := if last.Some? then Some(last.value.sentAt) else None;
    if last.Some? {
      var j :| 0 <= j < |table| && table[j] == last.value;
      assert table[j].conversation == c && table[j].sentAt == x.value;
    }
    LatestTimeUnique(table, c, x);
  }

  /** Only one optional time is absent exactly for an empty conversation and otherwise its latest send time. */
  lemma LatestTimeUnique(table: seq<Message>, c: Conversation, x: Option<int>)
    requires x.None? <==> forall i | 0 <= i < |table| :: table[i].conversation != c
    requires x.Some? ==> (exists i :: 0 <= i < |table| && table[i].conversation == c && table[i].sentAt == x.value)
                         && forall i | 0 <= i < |table| :: table[i].conversation == c ==> table[i].sentAt <= x.value
    ensures x == LastTime(table, c)
  {
    LastTimeIsLatest(table, c);
    var t := LastTime(table, c);
    if x.Some? {
      var i :| 0 <= i < |table| && table[i].conversation == c && table[i].sentAt == t.value;
      var j :| 0 <= j < |table| && table[j].conversation == c && table[j].sentAt == x.value;
      assert table[i].sentAt <= x.value && table[j].sentAt <= t.value;
    }
  }

  /** The send time of each conversation's last message. */
  function LastTimes(convs: seq<Conversation>, table: seq<Message>): (r: seq<Option<int>>)
    reads table
    ensures |r| == |convs|
    decreases |convs|
  {
    if convs == [] then [] else [LastTime(table, convs[0])] + LastTimes(convs[1..], table)
  }

  lemma {:induction false} LastTimesAt(convs: seq<Conversation>, table: seq<Message>, k: int)
    requires 0 <= k < |convs|
    ensures LastTimes(convs, table)[k] == LastTime(table, convs[k])
    decreases k
  {
    if k > 0 {
      LastTimesAt(convs[1..], table, k - 1);
    }
  }

  /**
   * Everything one detectEmergencies run for a known family adds, in order,
   * given the family's messages of the last 24 hours and the last send time
   * of each of its conversations.
   */
  function DetectionRun(store: seq<AlertRecord>, familyId: int, recent: seq<Message>, lastTimes: seq<Option<int>>,
                        order: seq<AlertType>, ai: (AlertType, seq<string>) -> Option<string>, now: int): seq<AlertRecord>
    requires CategoryOrder(order)
  {
    var keywordAlerts := KeywordPhase(store, familyId, order, Candidates(familyId, recent, order, ai, now), now);
    keywordAlerts + NoResponsePhase(store + keywordAlerts, familyId, lastTimes, now)
  }


  // ---------------------------------------------------------- properties

  /** Adding alerts of other types does not change the suppression check for `t`. */
  lemma ExistsIgnoresOtherTypes(store: seq<AlertRecord>, added: seq<AlertRecord>, familyId: int, t: AlertType, since: int)
    requires forall i | 0 <= i < |added| :: added[i].alertType != t
    ensures RecentAlertExists(store + added, familyId, t, since) == RecentAlertExists(store, familyId, t, since)
  {
    if RecentAlertExists(store + added, familyId, t, since) {
      var i :| 0 <= i < |store + added| && (store + added)[i].familyId == familyId
               && (store + added)[i].alertType == t && (store + added)[i].createdAt >= since;
      assert i < |store| && (store + added)[i] == store[i];
    }
    if RecentAlertExists(store, familyId, t, since) {
      var i :| 0 <= i < |store| && store[i].familyId == familyId && store[i].alertType == t && store[i].createdAt >= since;
      assert (store + added)[i] == store[i];
    }
  }

  /** No two alerts in `r` have the same type. */
  ghost predicate DistinctTypes(r: seq<AlertRecord>)
  {
    forall i, j | 0 <= i < j < |r| :: r[i].alertType != r[j].alertType
  }

  /** Some alert in `r` has type `t`. */
  ghost predicate HasType(r: seq<AlertRecord>, t: AlertType)
  {
    exists i :: 0 <= i < |r| && r[i].alertType == t
  }

  /** Every alert in `r` is the candidate of a category in `order`. */
  ghost predicate FromCandidates(r: seq<AlertRecord>, order: seq<AlertType>, candidates: seq<Option<AlertRecord>>)
    requires |candidates| == |order|
  {
    forall i | 0 <= i < |r| :: exists j :: 0 <= j < |order| && order[j] == r[i].alertType && candidates[j] == Some(r[i])
  }

  /** Each alert the keyword phase adds is the candidate of a scanned category. */
  lemma {:induction false} KeywordPhaseMembers(store: seq<AlertRecord>, familyId: int, order: seq<AlertType>,
                                               candidates: seq<Option<AlertRecord>>, now: int)
    requires TypedCandidates(order, candidates)
    ensures FromCandidates(KeywordPhase(store, familyId, order, candidates, now), order, candidates)
    decreases |order|
  {
    if order != [] {
      var created := KeywordStep(store, familyId, order[0], candidates[0], now);
      var rest := KeywordPhase(store + created, familyId, order[1..], candidates[1..], now);
      KeywordPhaseMembers(store + created, familyId, order[1..], candidates[1..], now);
      var r := created + rest;
      assert KeywordPhase(store, familyId, order, candidates, now) == r;
      forall i | 0 <= i < |r|
        ensures exists j :: 0 <= j < |order| && order[j] == r[i].alertType && candidates[j] == Some(r[i])
      {
        if i < |created| {
          assert order[0] == r[i].alertType && candidates[0] == Some(r[i]);
        } else {
          assert r[i] == rest[i - |created|];
          var j :| 0 <= j < |order[1..]| && order[1..][j] == r[i].alertType && candidates[1..][j] == Some(r[i]);
          assert order[j + 1] == r[i].alertType && candidates[j + 1] == Some(r[i]);
        }
      }
    }
  }

  /** With each category scanned once, the keyword phase adds at most one alert per type. */
  lemma {:induction false} KeywordPhaseDistinct(store: seq<AlertRecord>, familyId: int, order: seq<AlertType>,
                                                candidates: seq<Option<AlertRecord>>, now: int)
    requires TypedCandidates(order, candidates)
    requires forall i, j | 0 <= i < j < |order| :: order[i] != order[j]
    ensures DistinctTypes(KeywordPhase(store, familyId, order, candidates, now))
    decreases |order|
  {
    if order != [] {
      var created := KeywordStep(store, familyId, order[0], candidates[0], now);
      var rest := KeywordPhase(store + created, familyId, order[1..], candidates[1..], now);
      KeywordPhaseDistinct(store + created, familyId, order[1..], candidates[1..], now);
      KeywordPhaseMembers(store + created, familyId, order[1..], candidates[1..], now);
      var r := created + rest;
      assert KeywordPhase(store, familyId, order, candidates, now) == r;
      forall i, j | 0 <= i < j < |r| ensures r[i].alertType != r[j].alertType {
        assert r[j] == rest[j - |created|];
        if i < |created| {
          var m :| 0 <= m < |order[1..]| && order[1..][m] == r[j].alertType && candidates[1..][m] == Some(r[j]);
          assert order[m + 1] == r[j].alertType;
        } else {
          assert r[i] == rest[i - |created|];
        }
      }
    }
  }

  /**
   * A scanned category gets an alert exactly when it has a candidate and no
   * alert of its type was created in the last hour before the run: the
   * alerts the phase adds for other categories do not suppress it.
   */
  lemma {:induction false} KeywordPhaseFires(store: seq<AlertRecord>, familyId: int, order: seq<AlertType>,
                                             candidates: seq<Option<AlertRecord>>, now: int, k: int)
    requires TypedCandidates(order, candidates)
    requires forall i, j | 0 <= i < j < |order| :: order[i] != order[j]
    requires 0 <= k < |order|
    ensures HasType(KeywordPhase(store, familyId, order, candidates, now), order[k])
            <==> candidates[k].Some? && !RecentAlertExists(store, familyId, order[k], now - KeywordSuppression)
    decreases |order|
  {
    var t := order[0];
    var created := KeywordStep(store, familyId, t, candidates[0], now);
    var rest := KeywordPhase(store + created, familyId, order[1..], candidates[1..], now);
    assert KeywordPhase(store, familyId, order, candidates, now) == created + rest;
    if k == 0 {
      KeywordPhaseMembers(store + created, familyId, order[1..], candidates[1..], now);
      forall i | 0 <= i < |rest| ensures rest[i].alertType != t {
        var j :| 0 <= j < |order[1..]| && order[1..][j] == rest[i].alertType && candidates[1..][j] == Some(rest[i]);
        assert order[j + 1] == rest[i].alertType;
      }
      HasTypeOfPrefix(created, rest, t);
      if created != [] {
        assert created[0].alertType == t;
      }
    } else {
      var u := order[k];
      assert order[1..][k - 1] == u && candidates[1..][k - 1] == candidates[k];
      KeywordPhaseFires(store + created, familyId, order[1..], candidates[1..], now, k - 1);
      ExistsIgnoresOtherTypes(store, created, familyId, u, now - KeywordSuppression);
      HasTypeOfSuffix(created, rest, u);
    }
  }

  /** When the alerts after a prefix have no alert of type t, only the prefix decides whether t is present. */
  lemma HasTypeOfPrefix(a: seq<AlertRecord>, b: seq<AlertRecord>, t: AlertType)
    requires forall i | 0 <= i < |b| :: b[i].alertType != t
    ensures HasType(a + b, t) <==> HasType(a, t)
  {
    if HasType(a + b, t) {
      var i :| 0 <= i < |a + b| && (a + b)[i].alertType == t;
      assert i < |a| && a[i] == (a + b)[i];
    }
    if HasType(a, t) {
      var i :| 0 <= i < |a| && a[i].alertType == t;
      assert (a + b)[i] == a[i];
    }
  }

  /** When a prefix has no alert of type t, only what follows it decides whether t is present. */
  lemma HasTypeOfSuffix(a: seq<AlertRecord>, b: seq<AlertRecord>, t: AlertType)
    requires forall i | 0 <= i < |a| :: a[i].alertType != t
    ensures HasType(a + b, t) <==> HasType(b, t)
  {
    if HasType(a + b, t) {
      var i :| 0 <= i < |a + b| && (a + b)[i].alertType == t;
      assert i >= |a| && b[i - |a|] == (a + b)[i];
    }
    if HasType(b, t) {
      var i :| 0 <= i < |b| && b[i].alertType == t;
      assert (a + b)[i + |a|] == b[i];
    }
  }

  /** Once a NO_RESPONSE alert is recent, the rest of the scan adds nothing. */
  lemma {:induction false} NoResponseSuppressed(store: seq<AlertRecord>, familyId: int, lastTimes: seq<Option<int>>, now: int)
    requires RecentAlertExists(store, familyId, NO_RESPONSE, now - NoResponseSuppression)
    ensures NoResponsePhase(store, familyId, lastTimes, now) == []
    decreases |lastTimes|
  {
    if lastTimes != [] {
      NoResponseSuppressed(store, familyId, lastTimes[1..], now);
      assert store + [] == store;
    }
  }

  /**
   * What detectNoResponse adds: at most one alert, a NO_RESPONSE alert of
   * severity 7 with keyword text "무응답", and one exactly when some
   * conversation's last message is older than 48 hours and no NO_RESPONSE
   * alert was created in the last 24 hours.
   */
  lemma {:induction false} NoResponsePhaseSpec(store: seq<AlertRecord>, familyId: int, lastTimes: seq<Option<int>>, now: int)
    ensures var r := NoResponsePhase(store, familyId, lastTimes, now);
            |r| <= 1
            && (r != [] <==> (exists i :: 0 <= i < |lastTimes| && lastTimes[i].Some? && lastTimes[i].value < now - SilenceLimit)
                             && !RecentAlertExists(store, familyId, NO_RESPONSE, now - NoResponseSuppression))
            && (r != [] ==> r[0].alertType == NO_RESPONSE && r[0].familyId == familyId && r[0].severity == NoResponseSeverity
                            && r[0].detectedKeywords == NoResponseKeywords && r[0].aiAnalysis == NoResponseAnalysis
                            && r[0].createdAt == now)
    decreases |lastTimes|
  {
    if lastTimes != [] {
      var fires := lastTimes[0].Some? && lastTimes[0].value < now - SilenceLimit
                   && !RecentAlertExists(store, familyId, NO_RESPONSE, now - NoResponseSuppression);
      if fires {
        var created := [NoResponseAlert(familyId, lastTimes[0].value, now)];
        assert (store + created)[|store|] == created[0];
        assert RecentAlertExists(store + created, familyId, NO_RESPONSE, now - NoResponseSuppression);
        NoResponseSuppressed(store + created, familyId, lastTimes[1..], now);
      } else {
        assert store + [] == store;
        NoResponsePhaseSpec(store, familyId, lastTimes[1..], now);
        if exists i :: 0 <= i < |lastTimes[1..]| && lastTimes[1..][i].Some? && lastTimes[1..][i].value < now - SilenceLimit {
          var i :| 0 <= i < |lastTimes[1..]| && lastTimes[1..][i].Some? && lastTimes[1..][i].value < now - SilenceLimit;
          assert lastTimes[i + 1] == lastTimes[1..][i];
        }
        if exists i :: 0 <= i < |lastTimes| && lastTimes[i].Some? && lastTimes[i].value < now - SilenceLimit {
          var i :| 0 <= i < |lastTimes| && lastTimes[i].Some? && lastTimes[i].value < now - SilenceLimit;
          if i > 0 {
            assert lastTimes[1..][i - 1] == lastTimes[i];
          }
        }
      }
    }
  }

  /** Each keyword category appears once in the iteration order. */
  lemma CategoryOrderDistinct(order: seq<AlertType>)
    requires CategoryOrder(order)
    ensures forall i, j | 0 <= i < j < |order| :: order[i] != order[j]
    ensures forall i | 0 <= i < |order| :: order[i] != NO_RESPONSE
  {
  }

  /** A whole run adds at most one alert of each type. */
  lemma OneAlertPerTypePerRun(store: seq<AlertRecord>, familyId: int, recent: seq<Message>, lasts: seq<Option<int>>,
                              order: seq<AlertType>, ai: (AlertType, seq<string>) -> Option<string>, now: int)
    requires CategoryOrder(order)
    ensures DistinctTypes(DetectionRun(store, familyId, recent, lasts, order, ai, now))
  {
    var candidates := Candidates(familyId, recent, order, ai, now);
    var kw := KeywordPhase(store, familyId, order, candidates, now);
    var nr := NoResponsePhase(store + kw, familyId, lasts, now);
    assert DetectionRun(store, familyId, recent, lasts, order, ai, now) == kw + nr;
    CategoryOrderDistinct(order);
    KeywordPhaseMembers(store, familyId, order, candidates, now);
    KeywordPhaseDistinct(store, familyId, order, candidates, now);
    NoResponsePhaseSpec(store + kw, familyId, lasts, now);
    var r := kw + nr;
    forall i, j | 0 <= i < j < |r| ensures r[i].alertType != r[j].alertType {
      if j >= |kw| {
        assert j == |kw| && r[j] == nr[0];
        assert r[i] == kw[i];
        var m :| 0 <= m < |order| && order[m] == kw[i].alertType && candidates[m] == Some(kw[i]);
      }
    }
  }

  /**
   * In a whole run, a keyword category gets an alert exactly when one of
   * the family's recent messages matched it and no alert of that category
   * was created in the hour before the run.
   */
  lemma DetectionRunKeywordAlert(store: seq<AlertRecord>, familyId: int, recent: seq<Message>, lasts: seq<Option<int>>,
                                 order: seq<AlertType>, ai: (AlertType, seq<string>) -> Option<string>, now: int, k: int)
    requires CategoryOrder(order) && 0 <= k < |order|
    ensures HasType(DetectionRun(store, familyId, recent, lasts, order, ai, now), order[k])
            <==> MatchingMessages(recent, RiskKeywords(order[k])) != []
                 && !RecentAlertExists(store, familyId, order[k], now - KeywordSuppression)
  {
    var t := order[k];
    var candidates := Candidates(familyId, recent, order, ai, now);
    var kw := KeywordPhase(store, familyId, order, candidates, now);
    var nr := NoResponsePhase(store + kw, familyId, lasts, now);
    assert DetectionRun(store, familyId, recent, lasts, order, ai, now) == kw + nr;
    CategoryOrderDistinct(order);
    NoResponsePhaseTypes(store + kw, familyId, lasts, now);
    HasTypeOfPrefix(kw, nr, t);
    KeywordPhaseFires(store, familyId, order, candidates, now, k);
    CandidatesAt(familyId, recent, order, ai, now, k);
    CategoryAlertSpec(familyId, recent, t, ai, now);
  }

  /** Every alert detectNoResponse adds is a NO_RESPONSE alert. */
  lemma NoResponsePhaseTypes(store: seq<AlertRecord>, familyId: int, lastTimes: seq<Option<int>>, now: int)
    ensures forall i | 0 <= i < |NoResponsePhase(store, familyId, lastTimes, now)| ::
              NoResponsePhase(store, familyId, lastTimes, now)[i].alertType == NO_RESPONSE
  {
    NoResponsePhaseSpec(store, familyId, lastTimes, now);
  }

  /**
   * In a whole run, NO_RESPONSE is raised exactly when some conversation of
   * the family has been silent for more than 48 hours and no NO_RESPONSE
   * alert was created in the 24 hours before the run; the keyword alerts of
   * the same run do not suppress it.
   */
  lemma DetectionRunSilenceAlert(store: seq<AlertRecord>, familyId: int, recent: seq<Message>, lasts: seq<Option<int>>,
                                 order: seq<AlertType>, ai: (AlertType, seq<string>) -> Option<string>, now: int)
    requires CategoryOrder(order)
    ensures HasType(DetectionRun(store, familyId, recent, lasts, order, ai, now), NO_RESPONSE)
            <==> (exists i :: 0 <= i < |lasts| && lasts[i].Some? && lasts[i].value < now - SilenceLimit)
                 && !RecentAlertExists(store, familyId, NO_RESPONSE, now - NoResponseSuppression)
  {
    var candidates := Candidates(familyId, recent, order, ai, now);
    var kw := KeywordPhase(store, familyId, order, candidates, now);
    var nr := NoResponsePhase(store + kw, familyId, lasts, now);
    var r := kw + nr;
    assert DetectionRun(store, familyId, recent, lasts, order, ai, now) == r;
    CategoryOrderDistinct(order);
    KeywordPhaseMembers(store, familyId, order, candidates, now);
    NoResponsePhaseSpec(store + kw, familyId, lasts, now);
    forall i | 0 <= i < |kw| ensures kw[i].alertType != NO_RESPONSE {
      var m :| 0 <= m < |order| && order[m] == kw[i].alertType && candidates[m] == Some(kw[i]);
    }
    ExistsIgnoresOtherTypes(store, kw, familyId, NO_RESPONSE, now - NoResponseSuppression);
    if HasType(r, NO_RESPONSE) {
      var i :| 0 <= i < |r| && r[i].alertType == NO_RESPONSE;
      assert i >= |kw| && r[i] == nr[i - |kw|];
    }
    if nr != [] {
      assert r[|kw|] == nr[0];
    }
  }

  // ---------------------------------------------------------- the service

  /** The service together with the alert table it writes. */
  class EmergencyAlertService {
    var alerts: seq<EmergencyAlert>
    var nextId: int

    /** Alert ids are distinct and below the next id to hand out. */
    ghost predicate Valid()
      reads this
    {
      (forall i | 0 <= i < |alerts| :: alerts[i].id < nextId)
      && (forall i, j | 0 <= i < j < |alerts| :: alerts[i].id != alerts[j].id)
    }

    constructor ()
      ensures alerts == [] && Valid()
    {
      alerts := [];
      nextId := 1;
    }

    /** emergencyAlertRepository.save of a new alert: stamps id and createdAt. */
    method Save(rec: AlertRecord) returns (alert: EmergencyAlert)
      requires Valid()
      modifies this
      ensures Valid()
      ensures alerts == old(alerts) + [alert]
      ensures fresh(alert) && Record(alert) == rec
      ensures !alert.acknowledged && alert.acknowledgedAt == None
    {
      alert := new EmergencyAlert(nextId, rec.familyId, rec.alertType, rec.title, rec.content, rec.severity,
                                  rec.detectedKeywords, rec.aiAnalysis, rec.createdAt);
      alerts := alerts + [alert];
      nextId := nextId + 1;
    }

    method CreateEmergencyAlert(familyId: int, t: AlertType, detected: seq<string>, matched: seq<string>,
                                ai: (AlertType, seq<string>) -> Option<string>, now: int)
      requires Valid()
      modifies this
      ensures Valid()
      ensures Records(alerts) == Records(old(alerts)) + [KeywordAlert(familyId, t, detected, matched, ai, now)]
      ensures old(alerts) <= alerts
      ensures forall i | |old(alerts)| <= i < |alerts| :: fresh(alerts[i]) && !alerts[i].acknowledged && alerts[i].acknowledgedAt.None?
    {
      var reply := ai(t, matched);
      var aiAnalysis := if reply.Some? then reply.value else AiFallback;
      var title := AlertTitle(t);
      var content := AlertContent(t, detected, |matched|);
      var alert := Save(AlertRecord(familyId, t, title, content, CalculateSeverity(t, |detected|), Join(detected, ", "), aiAnalysis, now));
    }

    method CreateNoResponseAlert(familyId: int, lastMessageTime: int, now: int)
      requires Valid()
      modifies this
      ensures Valid()
      ensures Records(alerts) == Records(old(alerts)) + [NoResponseAlert(familyId, lastMessageTime, now)]
      ensures old(alerts) <= alerts
      ensures forall i | |old(alerts)| <= i < |alerts| :: fresh(alerts[i]) && !alerts[i].acknowledged && alerts[i].acknowledgedAt.None?
    {
      var hours := HoursBetween(lastMessageTime, now);
      var alert := Save(AlertRecord(familyId, NO_RESPONSE, NoResponseTitle, NoResponseContent(hours),
                                    NoResponseSeverity, NoResponseKeywords, NoResponseAnalysis, now));
    }

    /** One category of detectHighRiskKeywords, the k-th of the iteration order: scan, then raise the alert unless suppressed. */
    method DetectCategory(familyId: int, messages: seq<Message>, order: seq<AlertType>, k: int,
                          ai: (AlertType, seq<string>) -> Option<string>, now: int)
      requires Valid() && CategoryOrder(order) && 0 <= k < |order|
      modifies this
      ensures Valid()
      ensures Records(alerts) == Records(old(alerts))
                                 + KeywordStep(Records(old(alerts)), familyId, order[k], Candidates(familyId, messages, order, ai, now)[k], now)
      ensures old(alerts) <= alerts
      ensures forall i | |old(alerts)| <= i < |alerts| :: fresh(alerts[i]) && !alerts[i].acknowledged && alerts[i].acknowledgedAt.None?
    {
      var t := order[k];
      CandidatesAt(familyId, messages, order, ai, now, k);
      var detected, matched := ScanCategory(messages, RiskKeywords(t));
      RaiseKeywordAlert(familyId, t, detected, matched, ai, now);
    }

    /** The alert step of one category: raise it when keywords were found, unless one was raised in the last hour. */
    method RaiseKeywordAlert(familyId: int, t: AlertType, detected: seq<string>, matched: seq<string>,
                             ai: (AlertType, seq<string>) -> Option<string>, now: int)
      requires Valid()
      modifies this
      ensures Valid()
      ensures Records(alerts) == Records(old(alerts))
                                 + KeywordStep(Records(old(alerts)), familyId, t,
                                               if detected == [] then None else Some(KeywordAlert(familyId, t, detected, matched, ai, now)), now)
      ensures old(alerts) <= alerts
      ensures forall i | |old(alerts)| <= i < |alerts| :: fresh(alerts[i]) && !alerts[i].acknowledged && alerts[i].acknowledgedAt.None?
    {
      if detected != [] {
        if !ExistsByFamilyAndAlertTypeAndCreatedAtAfter(alerts, familyId, t, now - KeywordSuppression) {
          CreateEmergencyAlert(familyId, t, detected, matched, ai, now);
        } else {
          assert Records(alerts) + [] == Records(alerts);
        }
      } else {
        assert Records(alerts) + [] == Records(alerts);
      }
    }

    method DetectHighRiskKeywords(familyId: int, messages: seq<Message>, order: seq<AlertType>,
                                  ai: (AlertType, seq<string>) -> Option<string>, now: int)
      requires Valid() && CategoryOrder(order)
      modifies this
      ensures Valid()
      ensures Records(alerts) == Records(old(alerts)) + KeywordPhase(Records(old(alerts)), familyId, order, Candidates(familyId, messages, order, ai, now), now)
      ensures old(alerts) <= alerts
      ensures forall i | |old(alerts)| <= i < |alerts| :: fresh(alerts[i]) && !alerts[i].acknowledged && alerts[i].acknowledgedAt.None?
    {
      ghost var store0 := Records(alerts);
      ghost var candidates := Candidates(familyId, messages, order, ai, now);
      for k := 0 to |order|
        invariant Valid()
        invariant store0 + KeywordPhase(store0, familyId, order, candidates, now)
                  == Records(alerts) + KeywordPhase(Records(alerts), familyId, order[k..], candidates[k..], now)
        invariant old(alerts) <= alerts
        invariant forall i | |old(alerts)| <= i < |alerts| :: fresh(alerts[i]) && !alerts[i].acknowledged && alerts[i].acknowledgedAt.None?
      {
        ghost var before := Records(alerts);
        ghost var created := KeywordStep(before, familyId, order[k], candidates[k], now);
        ghost var rest := KeywordPhase(before + created, familyId, order[k + 1..], candidates[k + 1..], now);
        KeywordPhaseAt(before, familyId, order, candidates, now, k);
        DetectCategory(familyId, messages, order, k, ai, now);
        assert Records(alerts) == before + created;
        AppendAssociative(before, created, rest);
      }
    }

    /** One conversation of detectNoResponse, the k-th of the family's: raise NO_RESPONSE after 48 silent hours. */
    method DetectSilence(familyId: int, convs: seq<Conversation>, k: int, table: seq<Message>, now: int)
      requires Valid() && 0 <= k < |convs|
      modifies this
      ensures Valid()
      ensures Records(alerts) == Records(old(alerts)) + NoResponseStep(Records(old(alerts)), familyId, LastTimes(convs, table)[k], now)
      ensures old(alerts) <= alerts
      ensures forall i | |old(alerts)| <= i < |alerts| :: fresh(alerts[i]) && !alerts[i].acknowledged && alerts[i].acknowledgedAt.None?
    {
      LastTimesAt(convs, table, k);
      LastMessageTime(table, convs[k]);
      var lastMessage := FindLastMessageByConversation(table, convs[k]);
      RaiseNoResponseAlert(familyId, if lastMessage.Some? then Some(lastMessage.value.sentAt) else None, now);
    }

    /** The alert step of one conversation: raise NO_RESPONSE after 48 silent hours, unless one was raised in the last day. */
    method RaiseNoResponseAlert(familyId: int, lastTime: Option<int>, now: int)
      requires Valid()
      modifies this
      ensures Valid()
      ensures Records(alerts) == Records(old(alerts)) + NoResponseStep(Records(old(alerts)), familyId, lastTime, now)
      ensures old(alerts) <= alerts
      ensures forall i | |old(alerts)| <= i < |alerts| :: fresh(alerts[i]) && !alerts[i].acknowledged && alerts[i].acknowledgedAt.None?
    {
      if lastTime.Some? && lastTime.value < now - SilenceLimit {
        if !ExistsByFamilyAndAlertTypeAndCreatedAtAfter(alerts, familyId, NO_RESPONSE, now - NoResponseSuppression) {
          CreateNoResponseAlert(familyId, lastTime.value, now);
        } else {
          assert Records(alerts) + [] == Records(alerts);
        }
      } else {
        assert Records(alerts) + [] == Records(alerts);
      }
    }

    method DetectNoResponse(familyId: int, conversations: seq<Conversation>, table: seq<Message>, now: int)
      requires Valid()
      modifies this
      ensures Valid()
      ensures Records(alerts) == Records(old(alerts)) + NoResponsePhase(Records(old(alerts)), familyId, LastTimes(FamilyConversations(conversations, familyId), table), now)
      ensures old(alerts) <= alerts
      ensures forall i | |old(alerts)| <= i < |alerts| :: fresh(alerts[i]) && !alerts[i].acknowledged && alerts[i].acknowledgedAt.None?
    {
      ghost var store0 := Records(alerts);
      var convs := FamilyConversations(conversations, familyId);
      ghost var lasts := LastTimes(convs, table);
      for k := 0 to |convs|
        invariant Valid()
        invariant store0 + NoResponsePhase(store0, familyId, lasts, now)
                  == Records(alerts) + NoResponsePhase(Records(alerts), familyId, lasts[k..], now)
        invariant old(alerts) <= alerts
        invariant forall i | |old(alerts)| <= i < |alerts| :: fresh(alerts[i]) && !alerts[i].acknowledged && alerts[i].acknowledgedAt.None?
      {
        ghost var before := Records(alerts);
        ghost var created := NoResponseStep(before, familyId, lasts[k], now);
        ghost var rest := NoResponsePhase(before + created, familyId, lasts[k + 1..], now);
        NoResponsePhaseAt(before, familyId, lasts, now, k);
        DetectSilence(familyId, convs, k, table, now);
        assert Records(alerts) == before + created;
        AppendAssociative(before, created, rest);
      }
    }

    /**
     * detectEmergencies: an unknown family raises IllegalArgumentException
     * before any write; otherwise the run adds exactly DetectionRun's alerts,
     * all new and unacknowledged, and leaves the existing alerts as they were.
     */
    method DetectEmergencies(families: set<int>, familyId: int, table: seq<Message>, conversations: seq<Conversation>,
                             order: seq<AlertType>, ai: (AlertType, seq<string>) -> Option<string>, now: int)
      returns (r: Result<()>)
      requires Valid() && CategoryOrder(order)
      modifies this
      ensures Valid()
      ensures familyId !in families ==> r == Failure(IllegalArgument) && alerts == old(alerts)
      ensures familyId in families ==>
                r == Success(())
                && Records(alerts) == Records(old(alerts))
                                      + DetectionRun(Records(old(alerts)), familyId,
                                                     old(FindRecentMessagesByFamilyId(table, familyId, now - ScanWindow)),
                                                     LastTimes(FamilyConversations(conversations, familyId), table),
                                                     order, ai, now)
      ensures old(alerts) <= alerts
      ensures forall i | |old(alerts)| <= i < |alerts| :: fresh(alerts[i]) && !alerts[i].acknowledged && alerts[i].acknowledgedAt.None?
    {
      if familyId !in families {
        return Failure(IllegalArgument);
      }
      DetectFamily(familyId, table, conversations, order, ai, now);
      r := Success(());
    }

    /** The two scans of detectEmergencies for a known family, keywords first. */
    method DetectFamily(familyId: int, table: seq<Message>, conversations: seq<Conversation>,
                        order: seq<AlertType>, ai: (AlertType, seq<string>) -> Option<string>, now: int)
      requires Valid() && CategoryOrder(order)
      modifies this
      ensures Valid()
      ensures Records(alerts) == Records(old(alerts))
                                 + DetectionRun(Records(old(alerts)), familyId,
                                                old(FindRecentMessagesByFamilyId(table, familyId, now - ScanWindow)),
                                                LastTimes(FamilyConversations(conversations, familyId), table),
                                                order, ai, now)
      ensures old(alerts) <= alerts
      ensures forall i | |old(alerts)| <= i < |alerts| :: fresh(alerts[i]) && !alerts[i].acknowledged && alerts[i].acknowledgedAt.None?
    {
      ghost var store0 := Records(alerts);
      var since := now - ScanWindow;
      var recentMessages := FindRecentMessagesByFamilyId(table, familyId, since);
      ghost var keywordAlerts := KeywordPhase(store0, familyId, order, Candidates(familyId, recentMessages, order, ai, now), now);
      DetectHighRiskKeywords(familyId, recentMessages, order, ai, now);
      ghost var mid := Records(alerts);
      DetectNoResponse(familyId, conversations, table, now);
      ghost var lasts := LastTimes(FamilyConversations(conversations, familyId), table);
      assert Records(alerts) == store0 + DetectionRun(store0, familyId, recentMessages, lasts, order, ai, now) by {
        ghost var silenceAlerts := NoResponsePhase(mid, familyId, lasts, now);
        assert mid == store0 + keywordAlerts;
        assert Records(alerts) == mid + silenceAlerts;
        assert DetectionRun(store0, familyId, recentMessages, lasts, order, ai, now) == keywordAlerts + silenceAlerts;
        AppendAssociative(store0, keywordAlerts, silenceAlerts);
      }
    }

    /** getUnacknowledgedAlerts: the family's unacknowledged alerts, newest first. */
    function GetUnacknowledgedAlerts(families: set<int>, familyId: int): (r: Result<seq<EmergencyAlert>>)
      reads this, alerts
      ensures familyId !in families <==> r == Failure(IllegalArgument)
      ensures r.Success? ==> (forall i | 0 <= i < |r.value| :: r.value[i] in alerts && r.value[i].familyId == familyId && !r.value[i].acknowledged)
                             && (forall i | 0 <= i < |alerts| :: alerts[i].familyId == familyId && !alerts[i].acknowledged ==> alerts[i] in r.value)
                             && NewestFirst(r.value)
      ensures r.Success? ==> multiset(r.value) <= multiset(alerts)
      ensures r.Success? ==> forall i | 0 <= i < |alerts| && alerts[i].familyId == familyId && !alerts[i].acknowledged
                               :: multiset(r.value)[alerts[i]] == multiset(alerts)[alerts[i]]
    {
      if familyId !in families then Failure(IllegalArgument)
      else Success(FindByFamilyAndAcknowledgedFalseOrderByCreatedAtDesc(alerts, familyId))
    }

    /** The position of the alert with this id (findById). */
    function IndexOfAlert(alertId: int): (r: Option<nat>)
      reads this
      ensures r.None? <==> forall i | 0 <= i < |alerts| :: alerts[i].id != alertId
      ensures r.Some? ==> r.value < |alerts| && alerts[r.value].id == alertId
    {
      IndexOfId(alerts, alertId)
    }

    /**
     * acknowledgeAlert: an unknown id raises IllegalArgumentException and
     * changes nothing; otherwise that alert, and only it, becomes
     * acknowledged at `now`.
     */
    method AcknowledgeAlert(alertId: int, now: int) returns (r: Result<()>)
      requires Valid()
      modifies alerts
      ensures r.Failure? <==> forall i | 0 <= i < |alerts| :: alerts[i].id != alertId
      ensures r.Failure? ==> r.error == IllegalArgument
      ensures forall i | 0 <= i < |alerts| && alerts[i].id == alertId :: alerts[i].acknowledged && alerts[i].acknowledgedAt == Some(now)
      ensures forall i | 0 <= i < |alerts| && alerts[i].id != alertId ::
                alerts[i].acknowledged == old(alerts[i].acknowledged) && alerts[i].acknowledgedAt == old(alerts[i].acknowledgedAt)
    {
      var index := IndexOfAlert(alertId);
      if index.None? {
        return Failure(IllegalArgument);
      }
      alerts[index.value].Acknowledge(now);
      r := Success(());
    }
  }

  /**
   * Regrouping appended tables, kept apart so that the detection methods
   * do not prove sequence extensionality in their own large contexts.
   */
  lemma AppendAssociative<T>(a: seq<T>, b: seq<T>, c: seq<T>)
    ensures (a + b) + c == a + (b + c)
  {
  }

  function IndexOfId(table: seq<EmergencyAlert>, alertId: int): (r: Option<nat>)
    ensures r.None? <==> forall i | 0 <= i < |table| :: table[i].id != alertId
    ensures r.Some? ==> r.value < |table| && table[r.value].id == alertId
  {
    if table == [] then None
    else if table[0].id == alertId then Some(0)
    else
      var r := IndexOfId(table[1..], alertId);
      if r.Some? then Some(r.value + 1) else None
  }


}
