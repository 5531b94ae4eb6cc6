/**
 * The daily AI analysis of a family's recent conversation
 * (analysis/service/AnalysisService.java).
 *
 * The AI provider and the JSON parsing of its reply become one oracle per
 * dimension: given the transcript, it yields the parsed reply, or None
 * when the call throws, the reply is not JSON or a field is missing. A
 * message's sender nickname comes from the user table, passed in as a
 * function of the sender's id.
 */
module Analysis {
  import opened Common
  import opened Conversations
  import H = HealthInsights
  import E = EmotionInsights
  import N = NeedsInsights

  // ------------------------------------------------------------- transcript

  predicate IsTextMessage(m: Message)
  {
    m.messageType == TEXT
  }

  /** The TEXT messages, in input order. */
  function TextMessages(messages: seq<Message>): seq<Message>
  {
    Filter(messages, IsTextMessage)
  }

  /** "[yyyy-MM-dd] nickname: content"; a null content is written "null". */
  function TranscriptLine(m: Message, nickname: int -> string): string
  {
    "[" + IsoDate(DayOf(m.sentAt)) + "] " + nickname(m.sender) + ": "
    + (if m.content.Some? then m.content.value else "null")
  }

  /** One line per TEXT message, in input order; IMAGE messages are skipped. */
  function TranscriptLines(messages: seq<Message>, nickname: int -> string): (r: seq<string>)
    ensures |r| == |TextMessages(messages)|
    ensures forall i | 0 <= i < |r| :: r[i] == TranscriptLine(TextMessages(messages)[i], nickname)
  {
    Map(TextMessages(messages), (m: Message) => TranscriptLine(m, nickname))
  }

  /** buildConversationText: the transcript lines joined by newlines. */
  function ConversationText(messages: seq<Message>, nickname: int -> string): string
  {
    Join(TranscriptLines(messages, nickname), "\n")
  }

  lemma {:induction false} FilterIdempotent<T>(s: seq<T>, p: T -> bool)
    ensures Filter(Filter(s, p), p) == Filter(s, p)
    decreases |s|
  {
    if s != [] {
      FilterIdempotent(s[1..], p);
    }
  }

  /** The transcript depends on the TEXT messages only. */
  lemma TranscriptIgnoresImages(messages: seq<Message>, nickname: int -> string)
    ensures ConversationText(messages, nickname) == ConversationText(TextMessages(messages), nickname)
  {
    FilterIdempotent(messages, IsTextMessage);
  }

  /** A window holding only IMAGE messages gives the empty transcript. */
  lemma ImageOnlyTranscript(messages: seq<Message>, nickname: int -> string)
    requires forall i | 0 <= i < |messages| :: messages[i].messageType == IMAGE
    ensures ConversationText(messages, nickname) == ""
  {
  }

  // ------------------------------------------------------------ AI replies

  datatype HealthReply = HealthReply(keywords: string, severity: int, summary: string, recommendation: string)
  datatype EmotionReply = EmotionReply(emotionType: string, emotionScore: int, description: string, conversationTips: string)
  datatype NeedsReply = NeedsReply(category: string, items: string, priority: int, context: string, recommendations: string)

  /** The insight built from a reply, stamped with the analysis time; the score is stored as given. */
  function HealthOf(familyId: int, h: HealthReply, now: int): (r: H.HealthInsight)
    ensures r.familyId == familyId && r.severity == h.severity && r.analyzedAt == now
  {
    H.Build(familyId, h.keywords, h.severity, h.summary, Some(h.recommendation), Some(now), now)
  }

  function EmotionOf(familyId: int, e: EmotionReply, now: int): (r: E.EmotionInsight)
    ensures r.familyId == familyId && r.emotionScore == e.emotionScore && r.analyzedAt == now
  {
    E.Build(familyId, e.emotionType, e.emotionScore, e.description, Some(e.conversationTips), Some(now), now)
  }

  function NeedsOf(familyId: int, n: NeedsReply, now: int): (r: N.NeedsInsight)
    ensures r.familyId == familyId && r.priority == n.priority && r.analyzedAt == now
  {
    N.Build(familyId, n.category, n.items, n.priority, n.context, Some(n.recommendations), Some(now), now)
  }

  // ------------------------------------------------------------ one run

  /** The three insight tables. */
  datatype InsightStores = InsightStores(health: seq<H.HealthInsight>, emotion: seq<E.EmotionInsight>, needs: seq<N.NeedsInsight>)

  /**
   * The three analyses of one transcript, in the order health, emotion,
   * needs: the outcome and the insight tables as the running transaction
   * sees them afterwards. A failing step stops the later ones; the saves
   * made before it are still in the tables here and are undone only when
   * the transaction of analyzeFamily rolls back (Analyze).
   */
  function AnalyzeText(stores: InsightStores, familyId: int, text: string,
                       healthAi: string -> Option<HealthReply>, emotionAi: string -> Option<EmotionReply>,
                       needsAi: string -> Option<NeedsReply>, now: int): (r: (Result<()>, InsightStores))
    ensures stores.health <= r.1.health && |r.1.health| <= |stores.health| + 1
    ensures stores.emotion <= r.1.emotion && |r.1.emotion| <= |stores.emotion| + 1
    ensures stores.needs <= r.1.needs && |r.1.needs| <= |stores.needs| + 1
    ensures r.0.Failure? ==> r.0.error == Runtime
  {
    match healthAi(text)
    case None => (Failure(Runtime), stores)
    case Some(h) =>
      var s1 := stores.(health := stores.health + [HealthOf(familyId, h, now)]);
      match emotionAi(text)
      case None => (Failure(Runtime), s1)
      case Some(e) =>
        var s2 := s1.(emotion := s1.emotion + [EmotionOf(familyId, e, now)]);
        match needsAi(text)
        case None => (Failure(Runtime), s2)
        case Some(n) => (Success(()), s2.(needs := s2.needs + [NeedsOf(familyId, n, now)]))
  }

  /**
   * analyzeFamily on the family's recent messages `recent`: the committed
   * outcome. analyzeFamily is one transaction, so the runtime error of a
   * failed step rolls back the insights saved before it.
   */
  function Analyze(stores: InsightStores, families: set<int>, familyId: int, recent: seq<Message>, nickname: int -> string,
                   healthAi: string -> Option<HealthReply>, emotionAi: string -> Option<EmotionReply>,
                   needsAi: string -> Option<NeedsReply>, now: int): (r: (Result<()>, InsightStores))
    ensures familyId !in families ==> r == (Failure(IllegalArgument), stores)
    ensures familyId in families && recent == [] ==> r == (Success(()), stores)
  {
    if familyId !in families then (Failure(IllegalArgument), stores)
    else if recent == [] then (Success(()), stores)
    else
      var run := AnalyzeText(stores, familyId, ConversationText(recent, nickname), healthAi, emotionAi, needsAi, now);
      if run.0.Failure? then (run.0, stores) else run
  }

  /**
   * All or nothing: a failed analyzeFamily leaves every insight table as
   * it was, and a successful one either stores nothing (empty window) or
   * one insight of each kind; it fails with a runtime error exactly when
   * some reply of a non-empty window does not parse.
   */
  lemma AnalyzeAllOrNothing(stores: InsightStores, families: set<int>, familyId: int, recent: seq<Message>, nickname: int -> string,
                            healthAi: string -> Option<HealthReply>, emotionAi: string -> Option<EmotionReply>,
                            needsAi: string -> Option<NeedsReply>, now: int)
    ensures var r := Analyze(stores, families, familyId, recent, nickname, healthAi, emotionAi, needsAi, now);
            var text := ConversationText(recent, nickname);
            && (r.0.Failure? ==> r.1 == stores)
            && (r.0 == Failure(Runtime) <==> familyId in families && recent != []
                                             && !(healthAi(text).Some? && emotionAi(text).Some? && needsAi(text).Some?))
            && (r.0.Success? ==> (r.1 == stores) == (recent == []))
            && (r.0.Success? ==> |r.1.health| - |stores.health| == |r.1.emotion| - |stores.emotion|
                                 == |r.1.needs| - |stores.needs| <= 1)
  {
    AnalyzeTextOutcome(stores, familyId, ConversationText(recent, nickname), healthAi, emotionAi, needsAi, now);
  }

  /**
   * The dimensions run in the order health, emotion, needs, and the first
   * failing one stops the rest: each table grows exactly when its step and
   * every step before it got a reply.
   */
  lemma AnalyzeTextOutcome(stores: InsightStores, familyId: int, text: string,
                           healthAi: string -> Option<HealthReply>, emotionAi: string -> Option<EmotionReply>,
                           needsAi: string -> Option<NeedsReply>, now: int)
    ensures var r := AnalyzeText(stores, familyId, text, healthAi, emotionAi, needsAi, now);
            && (|r.1.health| > |stores.health| <==> healthAi(text).Some?)
            && (|r.1.emotion| > |stores.emotion| <==> healthAi(text).Some? && emotionAi(text).Some?)
            && (|r.1.needs| > |stores.needs| <==> healthAi(text).Some? && emotionAi(text).Some? && needsAi(text).Some?)
            && (r.0.Success? <==> healthAi(text).Some? && emotionAi(text).Some? && needsAi(text).Some?)
  {
  }

  /**
   * A successful run over a non-empty window adds exactly one insight of
   * each kind for the family, with no check for an earlier one, so
   * repeating the run adds duplicates.
   */
  lemma SuccessAddsOneOfEach(stores: InsightStores, families: set<int>, familyId: int, recent: seq<Message>, nickname: int -> string,
                             healthAi: string -> Option<HealthReply>, emotionAi: string -> Option<EmotionReply>,
                             needsAi: string -> Option<NeedsReply>, now: int)
    requires recent != []
    requires Analyze(stores, families, familyId, recent, nickname, healthAi, emotionAi, needsAi, now).0.Success?
    ensures var s := Analyze(stores, families, familyId, recent, nickname, healthAi, emotionAi, needsAi, now).1;
            && |s.health| == |stores.health| + 1 && s.health[|stores.health|].familyId == familyId
            && |s.emotion| == |stores.emotion| + 1 && s.emotion[|stores.emotion|].familyId == familyId
            && |s.needs| == |stores.needs| + 1 && s.needs[|stores.needs|].familyId == familyId
            && s.health[|stores.health|].analyzedAt == now
  {
    AnalyzeTextOutcome(stores, familyId, ConversationText(recent, nickname), healthAi, emotionAi, needsAi, now);
  }

  /**
   * The emptiness test looks at all messages, before the TEXT filter: a
   * window of IMAGE messages only still runs every dimension, on the
   * empty transcript.
   */
  lemma ImageOnlyWindowIsAnalyzed(stores: InsightStores, families: set<int>, familyId: int, recent: seq<Message>, nickname: int -> string,
                                  healthAi: string -> Option<HealthReply>, emotionAi: string -> Option<EmotionReply>,
                                  needsAi: string -> Option<NeedsReply>, now: int)
    requires familyId in families && recent != []
    requires forall i | 0 <= i < |recent| :: recent[i].messageType == IMAGE
    requires healthAi("").Some? && emotionAi("").Some? && needsAi("").Some?
    ensures var r := Analyze(stores, families, familyId, recent, nickname, healthAi, emotionAi, needsAi, now);
            r.0.Success? && r.1.health == stores.health + [HealthOf(familyId, healthAi("").value, now)]
  {
    ImageOnlyTranscript(recent, nickname);
  }

  // ------------------------------------------------------------ the service

  class AnalysisService {
    var health: seq<H.HealthInsight>
    var emotion: seq<E.EmotionInsight>
    var needs: seq<N.NeedsInsight>

    constructor ()
      ensures health == [] && emotion == [] && needs == []
    {
      health := [];
      emotion := [];
      needs := [];
    }

    function Stores(): InsightStores
      reads this
    {
      InsightStores(health, emotion, needs)
    }

    /** analyzeHealth: one AI call, then one save; a failed call or parse saves nothing. */
    method AnalyzeHealth(familyId: int, text: string, ai: string -> Option<HealthReply>, now: int) returns (r: Result<()>)
      modifies this
      ensures ai(text).None? ==> r == Failure(Runtime) && health == old(health)
      ensures ai(text).Some? ==> r == Success(()) && health == old(health) + [HealthOf(familyId, ai(text).value, now)]
      ensures emotion == old(emotion) && needs == old(needs)
    {
      var reply := ai(text);
      if reply.None? {
        return Failure(Runtime);
      }
      health := health + [HealthOf(familyId, reply.value, now)];
      r := Success(());
    }

    method AnalyzeEmotion(familyId: int, text: string, ai: string -> Option<EmotionReply>, now: int) returns (r: Result<()>)
      modifies this
      ensures ai(text).None? ==> r == Failure(Runtime) && emotion == old(emotion)
      ensures ai(text).Some? ==> r == Success(()) && emotion == old(emotion) + [EmotionOf(familyId, ai(text).value, now)]
      ensures health == old(health) && needs == old(needs)
    {
      var reply := ai(text);
      if reply.None? {
        return Failure(Runtime);
      }
      emotion := emotion + [EmotionOf(familyId, reply.value, now)];
      r := Success(());
    }

    method AnalyzeNeeds(familyId: int, text: string, ai: string -> Option<NeedsReply>, now: int) returns (r: Result<()>)
      modifies this
      ensures ai(text).None? ==> r == Failure(Runtime) && needs == old(needs)
      ensures ai(text).Some? ==> r == Success(()) && needs == old(needs) + [NeedsOf(familyId, ai(text).value, now)]
      ensures health == old(health) && emotion == old(emotion)
    {
      var reply := ai(text);
      if reply.None? {
        return Failure(Runtime);
      }
      needs := needs + [NeedsOf(familyId, reply.value, now)];
      r := Success(());
    }

    /** The three analyses of one transcript (the tail of analyzeFamily). */
    method AnalyzeTranscript(familyId: int, text: string, healthAi: string -> Option<HealthReply>,
                             emotionAi: string -> Option<EmotionReply>, needsAi: string -> Option<NeedsReply>, now: int)
      returns (r: Result<()>)
      modifies this
      ensures (r, Stores()) == AnalyzeText(old(Stores()), familyId, text, healthAi, emotionAi, needsAi, now)
    {
      r := AnalyzeHealth(familyId, text, healthAi, now);
      if r.Failure? {
        return;
      }
      r := AnalyzeEmotion(familyId, text, emotionAi, now);
      if r.Failure? {
        return;
      }
      r := AnalyzeNeeds(familyId, text, needsAi, now);
    }

    /**
     * analyzeFamily(familyId, days): the family's messages of the last
     * `days` days, turned into a transcript and analysed in three steps.
     */
    method AnalyzeFamily(families: set<int>, familyId: int, days: int, table: seq<Message>, nickname: int -> string,
                         healthAi: string -> Option<HealthReply>, emotionAi: string -> Option<EmotionReply>,
                         needsAi: string -> Option<NeedsReply>, now: int) returns (r: Result<()>)
      modifies this
      ensures (r, Stores()) == Analyze(old(Stores()), families, familyId,
                                       old(FindRecentMessagesByFamilyId(table, familyId, now - days * SecondsPerDay)),
                                       nickname, healthAi, emotionAi, needsAi, now)
      ensures unchanged(table)
    {
      if familyId !in families {
        return Failure(IllegalArgument);
      }
      var messages := FindRecentMessagesByFamilyId(table, familyId, now - days * SecondsPerDay);
      r := AnalyzeRecent(families, familyId, messages, nickname, healthAi, emotionAi, needsAi, now);
    }

    /** analyzeFamily once the family is known: nothing to do on an empty window, else the three analyses. */
    method AnalyzeRecent(families: set<int>, familyId: int, messages: seq<Message>, nickname: int -> string,
                         healthAi: string -> Option<HealthReply>, emotionAi: string -> Option<EmotionReply>,
                         needsAi: string -> Option<NeedsReply>, now: int) returns (r: Result<()>)
      requires familyId in families
      modifies this
      ensures (r, Stores()) == Analyze(old(Stores()), families, familyId, messages, nickname, healthAi, emotionAi, needsAi, now)
    {
      if messages == [] {
        return Success(());
      }
      var before := Stores();
      r := AnalyzeTranscript(familyId, ConversationText(messages, nickname), healthAi, emotionAi, needsAi, now);
      if r.Failure? {
        // the transaction rolls back
        health, emotion, needs := before.health, before.emotion, before.needs;
      }
    }
  }
}
