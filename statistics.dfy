// Conversation statistics (statistics/service/StatisticsService.java):
// message counts and their trend, the daily distribution, the hourly
// activity pattern with its peak hour, and message-length statistics.
// Values the source rounds to one decimal are kept as whole tenths.

module Statistics {
  import opened Common
  import RA = ReportAnalysis

  datatype MessageRecord = MessageRecord(content: string, timestamp: int, senderId: string)

  /**
   * num / den rounded to the nearest integer, halves upward (Math.round),
   * for den > 0.
   */
  function RoundDiv(num: int, den: int): (r: int)
    requires den > 0
    ensures 2 * den * r <= 2 * num + den < 2 * den * (r + 1)
  {
    (2 * num + den) / (2 * den)
  }

  // ------------------------------------------------------------------ trend

  /**
   * UP above +10 percent, DOWN below -10 percent, STABLE otherwise, 0
   * percent without a previous count. The counts are list sizes, so their
   * int difference never wraps and is taken exactly.
   */
  function DetermineTrend(previous: int, current: int): (d: RA.Direction)
    ensures d == RA.UP <==> previous > 0 && 100 * (current - previous) > 10 * previous
    ensures d == RA.DOWN <==> previous > 0 && 100 * (current - previous) < -10 * previous
    ensures d == RA.STABLE <==> previous <= 0 || -10 * previous <= 100 * (current - previous) <= 10 * previous
  {
    var change := 100 * (current - previous);
    if previous > 0 && change > 10 * previous then RA.UP
    else if previous > 0 && change < -10 * previous then RA.DOWN
    else RA.STABLE
  }

  /** Where the difference fits an int, the statistics trend is the report analysis trend. */
  lemma TrendAgreesWithReportAnalysis(previous: int, current: int, text: string)
    requires IsInt32(current - previous)
    ensures DetermineTrend(previous, current) == RA.AnalyzeTrend(previous, current, text).direction
  {
    assert Wrap32(current - previous) == current - previous;
  }

  /** The five descriptions of the change. */
  datatype TrendText = SharpRise | Rise | SharpFall | Fall | Similar

  function DescriptionKind(previous: int, current: int): (k: TrendText)
    ensures k == SharpRise <==> previous > 0 && 100 * (current - previous) > 20 * previous
    ensures k == Rise <==> previous > 0 && 10 * previous < 100 * (current - previous) <= 20 * previous
    ensures k == SharpFall <==> previous > 0 && 100 * (current - previous) < -20 * previous
    ensures k == Fall <==> previous > 0 && -20 * previous <= 100 * (current - previous) < -10 * previous
    ensures k == Similar <==> previous <= 0 || -10 * previous <= 100 * (current - previous) <= 10 * previous
  {
    var change := 100 * (current - previous);
    if previous <= 0 then Similar
    else if change > 20 * previous then SharpRise
    else if change > 10 * previous then Rise
    else if change < -20 * previous then SharpFall
    else if change < -10 * previous then Fall
    else Similar
  }

  /**
   * The description text; `percentText` is the change (its absolute value
   * for a decrease) formatted with one decimal.
   */
  function RenderDescription(kind: TrendText, percentText: string): string
  {
    match kind
    case SharpRise => "대화량이 " + percentText + "% 크게 증가했습니다"
    case Rise => "대화량이 " + percentText + "% 증가했습니다"
    case SharpFall => "대화량이 " + percentText + "% 크게 감소했습니다"
    case Fall => "대화량이 " + percentText + "% 감소했습니다"
    case Similar => "대화량이 평소와 비슷합니다"
  }

  /** The description agrees with the trend: an increase text iff UP, a decrease text iff DOWN. */
  lemma DescriptionAgreesWithTrend(previous: int, current: int)
    ensures var k := DescriptionKind(previous, current);
      && ((k == SharpRise || k == Rise) <==> DetermineTrend(previous, current) == RA.UP)
      && ((k == SharpFall || k == Fall) <==> DetermineTrend(previous, current) == RA.DOWN)
      && (k == Similar <==> DetermineTrend(previous, current) == RA.STABLE)
  {
  }

  // --------------------------------------------------------- daily counts

  /** Number of messages sent on day `d`. */
  function CountOnDay(ms: seq<MessageRecord>, d: int): nat
  {
    if ms == [] then 0
    else CountOnDay(ms[..|ms| - 1], d) + (if DayOf(ms[|ms| - 1].timestamp) == d then 1 else 0)
  }

  /** `ms` has a message sent on day `d`. */
  ghost predicate HasMessageOn(ms: seq<MessageRecord>, d: int)
  {
    exists i | 0 <= i < |ms| :: DayOf(ms[i].timestamp) == d
  }

  /** groupingBy(toLocalDate, summingInt(1)): message count per day that has one. */
  function DailyDistribution(ms: seq<MessageRecord>): (r: map<int, int>)
    ensures forall d | d in r :: r[d] == CountOnDay(ms, d) && r[d] >= 1
    ensures forall d | d !in r :: CountOnDay(ms, d) == 0
    ensures forall d :: d in r <==> HasMessageOn(ms, d)
  {
    if ms == [] then map[]
    else
      var init := ms[..|ms| - 1];
      var prev := DailyDistribution(init);
      var d := DayOf(ms[|ms| - 1].timestamp);
      assert forall e :: HasMessageOn(ms, e) <==> HasMessageOn(init, e) || e == d by {
        forall e ensures HasMessageOn(ms, e) <==> HasMessageOn(init, e) || e == d {
          if HasMessageOn(init, e) {
            var i :| 0 <= i < |init| && DayOf(init[i].timestamp) == e;
            assert ms[i] == init[i];
          }
        }
      }
      assert forall e :: CountOnDay(ms, e) == CountOnDay(init, e) + (if e == d then 1 else 0);
      prev[d := if d in prev then prev[d] + 1 else 1]
  }

  /** Some key of a non-empty map. */
  ghost function AnyKey(m: map<int, int>): (k: int)
    requires m.Keys != {}
    ensures k in m
  {
    var keys := m.Keys;
    assert (forall k :: k !in keys) ==> keys == {};
    var k :| k in keys;
    k
  }

  /** Sum of the values of a map. */
  ghost function MapSum(m: map<int, int>): int
    decreases |m.Keys|
  {
    if m.Keys == {} then 0
    else
      var k := AnyKey(m);
      assert (m - {k}).Keys == m.Keys - {k};
      m[k] + MapSum(m - {k})
  }

  /** Any key may be taken out first. */
  lemma {:induction false} MapSumRemove(m: map<int, int>, k: int)
    requires k in m
    ensures MapSum(m) == m[k] + MapSum(m - {k})
    decreases |m.Keys|
  {
    var k0 := AnyKey(m);
    if k0 != k {
      assert (m - {k0}).Keys == m.Keys - {k0} && (m - {k}).Keys == m.Keys - {k};
      MapSumRemove(m - {k0}, k);
      MapSumRemove(m - {k}, k0);
      assert m - {k0} - {k} == m - {k} - {k0};
    }
  }

  lemma MapSumUpdate(m: map<int, int>, k: int, v: int)
    ensures MapSum(m[k := v]) == MapSum(m) - (if k in m then m[k] else 0) + v
  {
    MapSumRemove(m[k := v], k);
    assert m[k := v] - {k} == m - {k};
    if k in m {
      MapSumRemove(m, k);
    } else {
      assert m - {k} == m;
    }
  }

  /** The daily counts add up to the number of messages. */
  lemma {:induction false} DailyDistributionSum(ms: seq<MessageRecord>)
    ensures MapSum(DailyDistribution(ms)) == |ms|
    decreases |ms|
  {
    if ms != [] {
      var init := ms[..|ms| - 1];
      DailyDistributionSum(init);
      var prev := DailyDistribution(init);
      var d := DayOf(ms[|ms| - 1].timestamp);
      MapSumUpdate(prev, d, if d in prev then prev[d] + 1 else 1);
    }
  }

  // ------------------------------------------------------- hourly pattern

  /** The key of hour h: "%02d:00". */
  function HourKey(h: int): string
    requires 0 <= h < 24
  {
    PadNat(h, 2) + ":00"
  }

  /** Number of messages sent during hour `h` of their day. */
  function CountAtHour(ms: seq<MessageRecord>, h: int): nat
  {
    if ms == [] then 0
    else CountAtHour(ms[..|ms| - 1], h) + (if HourOf(ms[|ms| - 1].timestamp) == h then 1 else 0)
  }

  /** Sum of the counts of a pattern. */
  function PatternTotal(pattern: seq<(string, int)>): int
  {
    if pattern == [] then 0 else PatternTotal(pattern[..|pattern| - 1]) + pattern[|pattern| - 1].1
  }

  lemma {:induction false} PatternTotalAppend(pattern: seq<(string, int)>, e: (string, int))
    ensures PatternTotal(pattern + [e]) == PatternTotal(pattern) + e.1
  {
    assert (pattern + [e])[..|pattern|] == pattern;
  }

  lemma {:induction false} PatternTotalIncrement(pattern: seq<(string, int)>, h: int)
    requires 0 <= h < |pattern|
    ensures PatternTotal(pattern[h := (pattern[h].0, pattern[h].1 + 1)]) == PatternTotal(pattern) + 1
    decreases |pattern|
  {
    var p' := pattern[h := (pattern[h].0, pattern[h].1 + 1)];
    var n := |pattern| - 1;
    if h < n {
      PatternTotalIncrement(pattern[..n], h);
      assert p'[..n] == pattern[..n][h := (pattern[h].0, pattern[h].1 + 1)];
    } else {
      assert p'[..n] == pattern[..n];
    }
  }

  /** `pattern` holds the 24 hour keys in order, each with its count among `ms`. */
  ghost predicate HourCounts(pattern: seq<(string, int)>, ms: seq<MessageRecord>)
  {
    |pattern| == 24 && forall h | 0 <= h < 24 :: pattern[h] == (HourKey(h), CountAtHour(ms, h))
  }

  /** One Map.merge(hourKey, 1, Integer::sum) step. */
  lemma HourStep(pattern: seq<(string, int)>, ms: seq<MessageRecord>, k: int)
    requires 0 <= k < |ms|
    requires HourCounts(pattern, ms[..k])
    ensures var hour := HourOf(ms[k].timestamp);
      HourCounts(pattern[hour := (pattern[hour].0, pattern[hour].1 + 1)], ms[..k + 1])
  {
    assert ms[..k + 1][..k] == ms[..k];
  }

  /** The second loop's body: count message k in its hour. */
  method MergeHour(pattern: seq<(string, int)>, ms: seq<MessageRecord>, k: int) returns (pattern': seq<(string, int)>)
    requires 0 <= k < |ms|
    requires HourCounts(pattern, ms[..k])
    ensures HourCounts(pattern', ms[..k + 1])
    ensures PatternTotal(pattern') == PatternTotal(pattern) + 1
  {
    var hour := HourOf(ms[k].timestamp);
    PatternTotalIncrement(pattern, hour);
    HourStep(pattern, ms, k);
    pattern' := pattern[hour := (pattern[hour].0, pattern[hour].1 + 1)];
  }

  /** The first loop: the 24 hour keys, each with count 0. */
  method EmptyPattern() returns (pattern: seq<(string, int)>)
    ensures HourCounts(pattern, [])
    ensures PatternTotal(pattern) == 0
  {
    pattern := [];
    var i := 0;
    while i < 24
      invariant 0 <= i <= 24 && |pattern| == i
      invariant forall h | 0 <= h < i :: pattern[h] == (HourKey(h), 0)
      invariant PatternTotal(pattern) == 0
    {
      PatternTotalAppend(pattern, (HourKey(i), 0));
      pattern := pattern + [(HourKey(i), 0)];
      i := i + 1;
    }
  }

  /**
   * The LinkedHashMap of hour keys "00:00" ... "23:00", in order, each with
   * its message count; the counts add up to the number of messages.
   */
  method CalculateHourlyPattern(ms: seq<MessageRecord>) returns (pattern: seq<(string, int)>)
    ensures HourCounts(pattern, ms)
    ensures PatternTotal(pattern) == |ms|
  {
    pattern := EmptyPattern();
    var k := 0;
    while k < |ms|
      invariant 0 <= k <= |ms|
      invariant HourCounts(pattern, ms[..k])
      invariant PatternTotal(pattern) == k
    {
      pattern := MergeHour(pattern, ms, k);
      k := k + 1;
    }
    assert ms[..k] == ms;
  }

  // ------------------------------------------------------------ peak hour

  /**
   * The index Stream.max keeps: a left fold that replaces the current
   * best only by a strictly larger count, so the earliest maximum wins.
   */
  function PeakIndex(counts: seq<int>): (p: nat)
    requires counts != []
    ensures p < |counts|
    ensures forall j | 0 <= j < |counts| :: counts[j] <= counts[p]
    ensures forall j | 0 <= j < p :: counts[j] < counts[p]
  {
    if |counts| == 1 then 0
    else
      var p := PeakIndex(counts[..|counts| - 1]);
      if counts[p] >= counts[|counts| - 1] then p else |counts| - 1
  }

  function Counts(pattern: seq<(string, int)>): (r: seq<int>)
    ensures |r| == |pattern| && forall i | 0 <= i < |pattern| :: r[i] == pattern[i].1
  {
    Map(pattern, (e: (string, int)) => e.1)
  }

  const UnknownHour: string := "알 수 없음"

  /** The key with the largest count, the earliest on a tie; "알 수 없음" for an empty pattern. */
  function FindPeakHour(pattern: seq<(string, int)>): (r: string)
    ensures pattern == [] ==> r == UnknownHour
    ensures pattern != [] ==> exists p | 0 <= p < |pattern| ::
      && r == pattern[p].0
      && (forall j | 0 <= j < |pattern| :: pattern[j].1 <= pattern[p].1)
      && (forall j | 0 <= j < p :: pattern[j].1 < pattern[p].1)
  {
    if pattern == [] then UnknownHour
    else pattern[PeakIndex(Counts(pattern))].0
  }

  /** On the 24-hour pattern the fallback is never used, and with no messages the peak is "00:00". */
  lemma PeakHourOfPattern(ms: seq<MessageRecord>, pattern: seq<(string, int)>)
    requires HourCounts(pattern, ms)
    ensures FindPeakHour(pattern) != UnknownHour
    ensures ms == [] ==> FindPeakHour(pattern) == "00:00"
  {
    var p := PeakIndex(Counts(pattern));
    assert HourKey(p)[|HourKey(p)| - 1] == '0';
    if ms == [] {
      assert pattern[0].1 == 0 && pattern[p].1 == 0;
      assert p == 0;
      assert PadNat(0, 2) == "00";
    }
  }

  // ------------------------------------------------- conversation stats

  datatype ConversationStats = ConversationStats(
    totalMessages: int,
    averagePerDayTenths: int,
    trend: RA.Direction,
    trendDescription: string,
    changePercentTenths: int,
    dailyDistribution: map<int, int>,
    hourlyPattern: seq<(string, int)>,
    peakHour: string,
    periodDays: int,
    previousTotalMessages: int,
    previousAveragePerDayTenths: int)

  /** The average per day in tenths, 0 for a period of no days. */
  function AveragePerDayTenths(count: int, periodDays: int): (r: int)
    ensures periodDays <= 0 ==> r == 0
    ensures periodDays > 0 ==> 2 * periodDays * r <= 20 * count + periodDays < 2 * periodDays * (r + 1)
  {
    if periodDays > 0 then RoundDiv(10 * count, periodDays) else 0
  }

  /** The change in tenths of a percent, 0 without previous messages. */
  function ChangePercentTenths(previous: int, current: int): (r: int)
    ensures previous <= 0 ==> r == 0
    ensures previous > 0 ==> 2 * previous * r <= 2000 * (current - previous) + previous < 2 * previous * (r + 1)
  {
    if previous > 0 then RoundDiv(1000 * (current - previous), previous) else 0
  }

  /**
   * The statistics of `messages` over [start, end] against the previous
   * period's messages; `percentText` is the formatted change used in the
   * description.
   */
  method CalculateConversationStats(start: int, end: int, messages: seq<MessageRecord>,
                                    previous: seq<MessageRecord>, percentText: string)
    returns (r: ConversationStats)
    ensures r.periodDays == DaysBetween(start, end) + 1
    ensures r.totalMessages == |messages| && r.previousTotalMessages == |previous|
    ensures r.averagePerDayTenths == AveragePerDayTenths(|messages|, r.periodDays)
    ensures r.previousAveragePerDayTenths == AveragePerDayTenths(|previous|, r.periodDays)
    ensures r.changePercentTenths == ChangePercentTenths(|previous|, |messages|)
    ensures r.trend == DetermineTrend(|previous|, |messages|)
    ensures r.trendDescription == RenderDescription(DescriptionKind(|previous|, |messages|), percentText)
    ensures r.dailyDistribution == DailyDistribution(messages)
    ensures HourCounts(r.hourlyPattern, messages)
    ensures PatternTotal(r.hourlyPattern) == |messages|
    ensures r.peakHour == FindPeakHour(r.hourlyPattern) && r.peakHour != UnknownHour
  {
    var periodDays := DaysBetween(start, end) + 1;
    var pattern := CalculateHourlyPattern(messages);
    PeakHourOfPattern(messages, pattern);
    r := ConversationStats(
      |messages|,
      AveragePerDayTenths(|messages|, periodDays),
      DetermineTrend(|previous|, |messages|),
      RenderDescription(DescriptionKind(|previous|, |messages|), percentText),
      ChangePercentTenths(|previous|, |messages|),
      DailyDistribution(messages),
      pattern,
      FindPeakHour(pattern),
      periodDays,
      |previous|,
      AveragePerDayTenths(|previous|, periodDays));
  }

  // --------------------------------------------------- message lengths

  datatype MessageStatistics = MessageStatistics(
    averageLengthTenths: int,
    minLength: int,
    maxLength: int,
    totalCharacters: int,
    shortAnswerCount: int,
    shortAnswerRatioTenths: int)

  /** content().length(): the length of a message in UTF-16 code units. */
  function Length(m: MessageRecord): nat
  {
    Utf16Length(m.content)
  }

  /** Sum of the content lengths. */
  function TotalCharacters(ms: seq<MessageRecord>): (n: nat)
  {
    if ms == [] then 0 else Length(ms[0]) + TotalCharacters(ms[1..])
  }

  function MinLength(ms: seq<MessageRecord>): (n: int)
    requires ms != []
    ensures exists i | 0 <= i < |ms| :: n == Length(ms[i])
    ensures forall i | 0 <= i < |ms| :: n <= Length(ms[i])
  {
    if |ms| == 1 then Length(ms[0])
    else
      var rest := MinLength(ms[1..]);
      assert forall i | 1 <= i < |ms| :: ms[i] == ms[1..][i - 1];
      if Length(ms[0]) <= rest then Length(ms[0]) else rest
  }

  function MaxLength(ms: seq<MessageRecord>): (n: int)
    requires ms != []
    ensures exists i | 0 <= i < |ms| :: n == Length(ms[i])
    ensures forall i | 0 <= i < |ms| :: n >= Length(ms[i])
  {
    if |ms| == 1 then Length(ms[0])
    else
      var rest := MaxLength(ms[1..]);
      assert forall i | 1 <= i < |ms| :: ms[i] == ms[1..][i - 1];
      if Length(ms[0]) >= rest then Length(ms[0]) else rest
  }

  predicate IsShortAnswer(m: MessageRecord)
  {
    Length(m) <= 10
  }

  lemma {:induction false} MulLe(k: nat, x: int, y: int)
    requires x <= y
    ensures k * x <= k * y
  {
    if k > 0 {
      MulLe(k - 1, x, y);
      assert k * x == (k - 1) * x + x && k * y == (k - 1) * y + y;
    }
  }

  lemma MulSucc(n: int, x: int)
    ensures (n + 1) * x == x + n * x
  {
  }

  /** The total lies between |ms| times the shortest and |ms| times the longest length. */
  lemma {:induction false} TotalBetweenMinAndMax(ms: seq<MessageRecord>)
    requires ms != []
    ensures |ms| * MinLength(ms) <= TotalCharacters(ms) <= |ms| * MaxLength(ms)
    decreases |ms|
  {
    if |ms| > 1 {
      var rest, n := ms[1..], |ms| - 1;
      var lo, hi, first := MinLength(ms), MaxLength(ms), Length(ms[0]);
      TotalBetweenMinAndMax(rest);
      assert lo <= MinLength(rest) && MaxLength(rest) <= hi by {
        assert rest[0] == ms[1];
      }
      MulLe(n, lo, MinLength(rest));
      MulLe(n, MaxLength(rest), hi);
      assert TotalCharacters(ms) == first + TotalCharacters(rest);
      MulSucc(n, lo);
      MulSucc(n, hi);
    }
  }

  function CalculateMessageStatistics(ms: seq<MessageRecord>): (r: MessageStatistics)
    ensures ms == [] ==> r == MessageStatistics(0, 0, 0, 0, 0, 0)
    ensures ms != [] ==>
      && r.totalCharacters == TotalCharacters(ms)
      && r.minLength == MinLength(ms) && r.maxLength == MaxLength(ms)
      && r.minLength <= r.maxLength
      && r.shortAnswerCount == |Filter(ms, IsShortAnswer)| <= |ms|
      && r.averageLengthTenths == RoundDiv(10 * TotalCharacters(ms), |ms|)
      && r.shortAnswerRatioTenths == RoundDiv(1000 * r.shortAnswerCount, |ms|)
  {
    if ms == [] then MessageStatistics(0, 0, 0, 0, 0, 0)
    else
      var short := |Filter(ms, IsShortAnswer)|;
      MessageStatistics(
        RoundDiv(10 * TotalCharacters(ms), |ms|),
        MinLength(ms),
        MaxLength(ms),
        TotalCharacters(ms),
        short,
        RoundDiv(1000 * short, |ms|))
  }

  lemma ScaleSum(n: int, x: int)
    ensures 2 * n * (10 * x + 1) == 20 * (n * x) + 2 * n
    ensures 2 * n * (10 * x) == 20 * (n * x)
  {
  }

  /** A rounded average of values between lo and hi lies between them too, in tenths. */
  lemma RoundedAverageBetween(total: int, n: int, lo: int, hi: int)
    requires n > 0 && n * lo <= total <= n * hi
    ensures 10 * lo <= RoundDiv(10 * total, n) <= 10 * hi
  {
    var a := RoundDiv(10 * total, n);
    ScaleSum(n, hi);
    ScaleSum(n, lo);
    if a > 10 * hi {
      MulLe(2 * n, 10 * hi + 1, a);
    }
    if a < 10 * lo {
      MulLe(2 * n, a + 1, 10 * lo);
    }
  }

  /** The rounded average length lies between the shortest and the longest message, in tenths. */
  lemma AverageWithinRange(ms: seq<MessageRecord>)
    requires ms != []
    ensures var r := CalculateMessageStatistics(ms);
      10 * r.minLength <= r.averageLengthTenths <= 10 * r.maxLength
  {
    TotalBetweenMinAndMax(ms);
    RoundedAverageBetween(TotalCharacters(ms), |ms|, MinLength(ms), MaxLength(ms));
  }
}
