/**
 * Emergency alerts (alert/domain/EmergencyAlert.java, AlertType.java) and
 * the alert repository queries (alert/repository/EmergencyAlertRepository.java).
 *
 * An alert's family is kept as the family id. The creation time is the
 * time the alert is saved, given to the constructor.
 */
module EmergencyAlerts {
  import opened Common

  datatype AlertType = HEALTH_EMERGENCY | SAFETY_RISK | MENTAL_CRISIS | NO_RESPONSE

  /** Severity from which an alert counts as high (isHighSeverity). */
  const HighSeverity: int := 8

  class EmergencyAlert {
    const id: int
    const familyId: int
    const alertType: AlertType
    const title: string
    const content: string
    const severity: int
    const detectedKeywords: string
    const aiAnalysis: string
    const createdAt: int
    var acknowledged: bool
    var acknowledgedAt: Option<int>

    /**
     * The builder constructor. Fields are stored as given: severity is
     * not range-checked. A new alert is unacknowledged.
     */
    constructor (id: int, familyId: int, alertType: AlertType, title: string, content: string,
                 severity: int, detectedKeywords: string, aiAnalysis: string, createdAt: int)
      ensures this.id == id && this.familyId == familyId && this.alertType == alertType
      ensures this.title == title && this.content == content && this.severity == severity
      ensures this.detectedKeywords == detectedKeywords && this.aiAnalysis == aiAnalysis
      ensures this.createdAt == createdAt
      ensures !acknowledged && acknowledgedAt == None
    {
      this.id := id;
      this.familyId := familyId;
      this.alertType := alertType;
      this.title := title;
      this.content := content;
      this.severity := severity;
      this.detectedKeywords := detectedKeywords;
      this.aiAnalysis := aiAnalysis;
      this.createdAt := createdAt;
      acknowledged := false;
      acknowledgedAt := None;
    }

    /**
     * Marks the alert as seen at `now`. Acknowledging twice is allowed and
     * moves the acknowledgement time.
     */
    method Acknowledge(now: int)
      modifies this
      ensures acknowledged && acknowledgedAt == Some(now)
    {
      acknowledged := true;
      acknowledgedAt := Some(now);
    }

    function IsHighSeverity(): (b: bool)
      ensures b <==> severity >= HighSeverity
    {
      severity >= 8
    }
  }

  /** Newest first (ORDER BY createdAt DESC). */
  function ByCreatedAtDesc(a: EmergencyAlert): Rank
  {
    Desc(a.createdAt)
  }

  ghost predicate NewestFirst(r: seq<EmergencyAlert>)
  {
    forall i, j | 0 <= i < j < |r| :: r[i].createdAt >= r[j].createdAt
  }

  lemma NewestFirstOfSorted(r: seq<EmergencyAlert>)
    requires SortedBy(r, ByCreatedAtDesc)
    ensures NewestFirst(r)
  {
    forall i, j | 0 <= i < j < |r| ensures r[i].createdAt >= r[j].createdAt {
      assert RankLe(ByCreatedAtDesc(r[i]), ByCreatedAtDesc(r[j]));
    }
  }

  function FindByFamilyOrderByCreatedAtDesc(table: seq<EmergencyAlert>, familyId: int): (r: seq<EmergencyAlert>)
    ensures forall i | 0 <= i < |r| :: r[i] in table && r[i].familyId == familyId
    ensures forall i | 0 <= i < |table| :: table[i].familyId == familyId ==> table[i] in r
    ensures NewestFirst(r)
    ensures multiset(r) == multiset(Filter(table, (a: EmergencyAlert) => a.familyId == familyId))
  {
    var r := Query(table, (a: EmergencyAlert) => a.familyId == familyId, ByCreatedAtDesc);
    NewestFirstOfSorted(r);
    r
  }

  /** The family's alerts that are not acknowledged, in table order. */
  function Unacknowledged(table: seq<EmergencyAlert>, familyId: int): (r: seq<EmergencyAlert>)
    reads table
    ensures forall i | 0 <= i < |r| :: r[i] in table && r[i].familyId == familyId && !r[i].acknowledged
    ensures forall i | 0 <= i < |table| :: table[i].familyId == familyId && !table[i].acknowledged ==> table[i] in r
    ensures multiset(r) <= multiset(table)
    ensures forall i | 0 <= i < |table| && table[i].familyId == familyId && !table[i].acknowledged
              :: multiset(r)[table[i]] == multiset(table)[table[i]]
  {
    if table == [] then []
    else
      assert table == [table[0]] + table[1..];
      if table[0].familyId == familyId && !table[0].acknowledged then [table[0]] + Unacknowledged(table[1..], familyId)
      else Unacknowledged(table[1..], familyId)
  }

  function FindByFamilyAndAcknowledgedFalseOrderByCreatedAtDesc(table: seq<EmergencyAlert>, familyId: int): (r: seq<EmergencyAlert>)
    reads table
    ensures forall i | 0 <= i < |r| :: r[i] in table && r[i].familyId == familyId && !r[i].acknowledged
    ensures forall i | 0 <= i < |table| :: table[i].familyId == familyId && !table[i].acknowledged ==> table[i] in r
    ensures NewestFirst(r)
    ensures multiset(r) <= multiset(table)
    ensures forall i | 0 <= i < |table| :: table[i].familyId == familyId && !table[i].acknowledged
              ==> multiset(r)[table[i]] == multiset(table)[table[i]]
  {
    var pending, all := Unacknowledged(table, familyId), (a: EmergencyAlert) => true;
    var r := Query(pending, all, ByCreatedAtDesc);
    FilterAll(pending, all);
    NewestFirstOfSorted(r);
    r
  }

  /** The family's alerts of one type, in table order (no ORDER BY). */
  function FindByFamilyAndAlertType(table: seq<EmergencyAlert>, familyId: int, alertType: AlertType): (r: seq<EmergencyAlert>)
    ensures forall i | 0 <= i < |r| :: r[i] in table && r[i].familyId == familyId && r[i].alertType == alertType
    ensures forall i | 0 <= i < |table| :: table[i].familyId == familyId && table[i].alertType == alertType ==> table[i] in r
    ensures r == Filter(table, (a: EmergencyAlert) => a.familyId == familyId && a.alertType == alertType)
  {
    Filter(table, (a: EmergencyAlert) => a.familyId == familyId && a.alertType == alertType)
  }

  function FindHighSeverityByFamily(table: seq<EmergencyAlert>, familyId: int): (r: seq<EmergencyAlert>)
    ensures forall i | 0 <= i < |r| :: r[i] in table && r[i].familyId == familyId && r[i].IsHighSeverity()
    ensures forall i | 0 <= i < |table| :: table[i].familyId == familyId && table[i].IsHighSeverity() ==> table[i] in r
    ensures NewestFirst(r)
    ensures multiset(r) == multiset(Filter(table, (a: EmergencyAlert) => a.familyId == familyId && a.IsHighSeverity()))
  {
    var r := Query(table, (a: EmergencyAlert) => a.familyId == familyId && a.IsHighSeverity(), ByCreatedAtDesc);
    NewestFirstOfSorted(r);
    r
  }

  /** The family's alerts with start <= createdAt <= end (SQL BETWEEN), newest first. */
  function FindByFamilyAndCreatedAtBetween(table: seq<EmergencyAlert>, familyId: int, start: int, end: int): (r: seq<EmergencyAlert>)
    ensures forall i | 0 <= i < |r| :: r[i] in table && r[i].familyId == familyId && start <= r[i].createdAt <= end
    ensures forall i | 0 <= i < |table| :: table[i].familyId == familyId && start <= table[i].createdAt <= end ==> table[i] in r
    ensures NewestFirst(r)
    ensures multiset(r) == multiset(Filter(table, (a: EmergencyAlert) => a.familyId == familyId && start <= a.createdAt <= end))
  {
    var r := Query(table, (a: EmergencyAlert) => a.familyId == familyId && start <= a.createdAt <= end, ByCreatedAtDesc);
    NewestFirstOfSorted(r);
    r
  }

  // ------------------------------------------------------- alert records

  /** The immutable columns of an alert, as a value. */
  datatype AlertRecord = AlertRecord(familyId: int, alertType: AlertType, title: string, content: string,
                                     severity: int, detectedKeywords: string, aiAnalysis: string, createdAt: int)

  function Record(a: EmergencyAlert): AlertRecord
  {
    AlertRecord(a.familyId, a.alertType, a.title, a.content, a.severity, a.detectedKeywords, a.aiAnalysis, a.createdAt)
  }

  function Records(table: seq<EmergencyAlert>): (r: seq<AlertRecord>)
    ensures |r| == |table|
    ensures forall i | 0 <= i < |table| :: r[i] == Record(table[i])
  {
    seq(|table|, i requires 0 <= i < |table| => Record(table[i]))
  }

  /** Some stored alert of the family and type was created at or after `since`. */
  predicate RecentAlertExists(store: seq<AlertRecord>, familyId: int, alertType: AlertType, since: int)
  {
    exists i :: 0 <= i < |store| && store[i].familyId == familyId && store[i].alertType == alertType && store[i].createdAt >= since
  }

  /**
   * The duplicate-suppression query: true iff an alert of the family and
   * type has createdAt >= since. The bound is inclusive although the name
   * says "after".
   */
  function ExistsByFamilyAndAlertTypeAndCreatedAtAfter(table: seq<EmergencyAlert>, familyId: int, alertType: AlertType, since: int): (b: bool)
    ensures b <==> RecentAlertExists(Records(table), familyId, alertType, since)
    ensures b <==> exists i :: 0 <= i < |table| && table[i].familyId == familyId && table[i].alertType == alertType && since <= table[i].createdAt
  {
    var recs := Records(table);
    assert forall i | 0 <= i < |table| :: recs[i].createdAt == table[i].createdAt;
    exists i :: 0 <= i < |table| && table[i].familyId == familyId && table[i].alertType == alertType && table[i].createdAt >= since
  }
}
