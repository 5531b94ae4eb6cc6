// The report calculators (report/service/ReportAnalysisService.java):
// health risk level, sentiment status with the volume-drop override,
// trend direction and keyword frequency. Ratios that the source computes
// in double precision are compared here by integer cross-multiplication.

module ReportAnalysis {
  import opened Common

  // ------------------------------------------------------------ health risk

  datatype RiskLevel = HIGH | MEDIUM | LOW

  /** Words whose presence inside any keyword makes the risk HIGH. */
  const HighRiskWords: set<string> :=
    {"응급", "119", "통증", "쓰러", "어지러", "숨쉬기", "가슴", "심장", "구토", "피"}

  datatype RiskAnalysis = RiskAnalysis(
    riskLevel: RiskLevel,
    mentionCount: int,
    keywords: seq<string>,
    recommendation: string,
    color: string)

  /** `keyword` contains one of the high-risk words as a substring. */
  predicate IsHighRiskKeyword(keyword: string)
  {
    exists w | w in HighRiskWords :: Contains(keyword, w)
  }

  predicate HasHighRiskKeywords(keywords: seq<string>)
  {
    exists i | 0 <= i < |keywords| :: IsHighRiskKeyword(keywords[i])
  }

  /** A keyword list is high-risk exactly when some word occurs at some offset of some keyword. */
  lemma HighRiskKeywordsOccur(keywords: seq<string>)
    ensures HasHighRiskKeywords(keywords) <==>
      exists i, w, p | 0 <= i < |keywords| && w in HighRiskWords :: OccursAt(keywords[i], w, p)
  {
    forall i, w | 0 <= i < |keywords| && w in HighRiskWords
      ensures Contains(keywords[i], w) <==> exists p :: OccursAt(keywords[i], w, p)
    {
      ContainsIffOccurs(keywords[i], w);
    }
  }

  /** The advice shown for each level: recommendation text and display colour. */
  function Advice(level: RiskLevel): (string, string)
  {
    match level
    case HIGH => ("즉시 병원 방문을 권장합니다", "#DC2626")
    case MEDIUM => ("정기 검진을 권유해보세요", "#F59E0B")
    case LOW => ("건강 상태가 양호합니다", "#10B981")
  }

  function AnalyzeHealthRisk(keywords: seq<string>, mentionCount: int): (r: RiskAnalysis)
    ensures r.riskLevel == HIGH <==> mentionCount >= 10 || HasHighRiskKeywords(keywords)
    ensures r.riskLevel == MEDIUM <==> 5 <= mentionCount < 10 && !HasHighRiskKeywords(keywords)
    ensures r.riskLevel == LOW <==> mentionCount < 5 && !HasHighRiskKeywords(keywords)
    ensures (r.recommendation, r.color) == Advice(r.riskLevel)
    ensures r.mentionCount == mentionCount && r.keywords == keywords
  {
    var level :=
      if mentionCount >= 10 || HasHighRiskKeywords(keywords) then HIGH
      else if mentionCount >= 5 then MEDIUM
      else LOW;
    var (recommendation, color) := Advice(level);
    RiskAnalysis(level, mentionCount, keywords, recommendation, color)
  }

  /** LOW < MEDIUM < HIGH. */
  function Severity(level: RiskLevel): int
  {
    match level
    case LOW => 0
    case MEDIUM => 1
    case HIGH => 2
  }

  /** More mentions never lower the risk level. */
  lemma RiskMonotone(keywords: seq<string>, a: int, b: int)
    requires a <= b
    ensures Severity(AnalyzeHealthRisk(keywords, a).riskLevel)
         <= Severity(AnalyzeHealthRisk(keywords, b).riskLevel)
  {
  }

  /** Different levels always show different advice. */
  lemma AdviceDeterminesLevel(r1: RiskAnalysis, r2: RiskAnalysis, k1: seq<string>, k2: seq<string>, m1: int, m2: int)
    requires r1 == AnalyzeHealthRisk(k1, m1) && r2 == AnalyzeHealthRisk(k2, m2)
    ensures r1.riskLevel == r2.riskLevel <==> r1.color == r2.color
    ensures r1.riskLevel == r2.riskLevel <==> r1.recommendation == r2.recommendation
  {
  }

  /** Substring matching makes "피곤" (tired) a high-risk keyword, as it contains "피" (blood). */
  lemma TiredIsHighRisk()
    ensures AnalyzeHealthRisk(["피곤"], 0).riskLevel == HIGH
  {
    assert Contains("피곤", "피");
    assert IsHighRiskKeyword(["피곤"][0]);
  }

  // -------------------------------------------------------------- sentiment

  datatype EmotionStatus = POSITIVE | CONCERNED | NEUTRAL

  datatype SentimentAnalysis = SentimentAnalysis(
    emotionStatus: EmotionStatus,
    emoji: string,
    summary: string,
    totalMessages: int)

  const VolumeDropNote: string := ". 대화량이 크게 감소했습니다"

  /** positive / total * 100 > 60, with the ratio 0 when total is not positive. */
  predicate MostlyPositive(positive: int, total: int)
  {
    total > 0 && 100 * positive > 60 * total
  }

  /** negative / total * 100 > 40, with the ratio 0 when total is not positive. */
  predicate MostlyNegative(negative: int, total: int)
  {
    total > 0 && 100 * negative > 40 * total
  }

  /**
   * (current - previous) / previous * 100 < -20, with the change 0 when
   * previous is not positive; the difference is an int subtraction.
   */
  predicate VolumeDropped(previous: int, current: int)
  {
    previous > 0 && 100 * Wrap32(current - previous) < -20 * previous
  }

  /** totalCount: the int sum of the three counts. */
  function SentimentTotal(positive: int, negative: int, neutral: int): int
  {
    Wrap32(positive + negative + neutral)
  }

  /** The status read from the emotion ratios alone, over the int total. */
  function RatioStatus(positive: int, negative: int, neutral: int): (s: EmotionStatus)
    ensures var total := SentimentTotal(positive, negative, neutral);
      && (s == POSITIVE <==> MostlyPositive(positive, total))
      && (s == CONCERNED <==> !MostlyPositive(positive, total) && MostlyNegative(negative, total))
      && (s == NEUTRAL <==> !MostlyPositive(positive, total) && !MostlyNegative(negative, total))
  {
    var total := SentimentTotal(positive, negative, neutral);
    if MostlyPositive(positive, total) then POSITIVE
    else if MostlyNegative(negative, total) then CONCERNED
    else NEUTRAL
  }

  function Emoji(s: EmotionStatus): string
  {
    match s
    case POSITIVE => "😊"
    case CONCERNED => "😟"
    case NEUTRAL => "😐"
  }

  function StatusSummary(s: EmotionStatus): string
  {
    match s
    case POSITIVE => "긍정적인 대화가 많습니다"
    case CONCERNED => "부정적인 감정이 감지됩니다"
    case NEUTRAL => "평범한 감정 상태입니다"
  }

  function AnalyzeSentiment(positive: int, negative: int, neutral: int, previousTotal: int, currentTotal: int)
    : (r: SentimentAnalysis)
    ensures r.totalMessages == SentimentTotal(positive, negative, neutral)
    ensures IsInt32(positive + negative + neutral) ==> r.totalMessages == positive + negative + neutral
    ensures r.emotionStatus == (if VolumeDropped(previousTotal, currentTotal) then CONCERNED
                                else RatioStatus(positive, negative, neutral))
    ensures r.emoji == Emoji(RatioStatus(positive, negative, neutral))
    ensures r.summary == StatusSummary(RatioStatus(positive, negative, neutral))
                         + (if VolumeDropped(previousTotal, currentTotal) then VolumeDropNote else "")
  {
    var ratio := RatioStatus(positive, negative, neutral);
    var dropped := VolumeDropped(previousTotal, currentTotal);
    SentimentAnalysis(
      if dropped then CONCERNED else ratio,
      Emoji(ratio),
      StatusSummary(ratio) + (if dropped then VolumeDropNote else ""),
      SentimentTotal(positive, negative, neutral))
  }

  /**
   * The emoji shows the status exactly unless the volume-drop override
   * turned a POSITIVE or NEUTRAL reading into CONCERNED.
   */
  lemma EmojiMatchesStatusUnlessOverridden(positive: int, negative: int, neutral: int, previousTotal: int, currentTotal: int)
    ensures var r := AnalyzeSentiment(positive, negative, neutral, previousTotal, currentTotal);
      r.emoji == Emoji(r.emotionStatus) <==>
        !VolumeDropped(previousTotal, currentTotal) || RatioStatus(positive, negative, neutral) == CONCERNED
  {
    var ratio := RatioStatus(positive, negative, neutral);
    if VolumeDropped(previousTotal, currentTotal) && ratio != CONCERNED {
      assert Emoji(ratio)[0] != Emoji(CONCERNED)[0];
    }
  }

  /** Seven positive messages and a fall from 100 to 10 messages: CONCERNED, still with the smile. */
  lemma SmilingButConcerned()
    ensures var r := AnalyzeSentiment(7, 0, 0, 100, 10);
      r.emotionStatus == CONCERNED && r.emoji == "😊"
  {
  }

  /**
   * One positive message too many: the int total wraps to the smallest
   * int, so the ratios are 0 and the reading is NEUTRAL, where the exact
   * total would have read POSITIVE.
   */
  lemma WrappedTotalReadsNeutral()
    ensures var r := AnalyzeSentiment(0x7fff_ffff, 1, 0, 0, 0);
      r.totalMessages == MinInt32 && r.emotionStatus == NEUTRAL
    ensures MostlyPositive(0x7fff_ffff, 0x7fff_ffff + 1)
  {
    assert SentimentTotal(0x7fff_ffff, 1, 0) == MinInt32;
  }

  // ------------------------------------------------------------------ trend

  datatype Direction = UP | DOWN | STABLE

  datatype TrendAnalysis = TrendAnalysis(
    direction: Direction,
    icon: string,
    description: string,
    previousValue: int,
    currentValue: int)

  /** The change (an int subtraction) exceeds +10 percent of a positive previous value. */
  predicate Rising(previous: int, current: int)
  {
    previous > 0 && 100 * Wrap32(current - previous) > 10 * previous
  }

  /** The change (an int subtraction) is below -10 percent of a positive previous value. */
  predicate Falling(previous: int, current: int)
  {
    previous > 0 && 100 * Wrap32(current - previous) < -10 * previous
  }

  /**
   * `percentText` is the change formatted with one decimal (and without
   * sign for a decrease); the formatting of the double is not modelled.
   */
  function AnalyzeTrend(previous: int, current: int, percentText: string): (r: TrendAnalysis)
    ensures r.direction == UP <==> Rising(previous, current)
    ensures r.direction == DOWN <==> Falling(previous, current)
    ensures r.direction == STABLE <==> !Rising(previous, current) && !Falling(previous, current)
    ensures r.icon == (match r.direction case UP => "↑" case DOWN => "↓" case STABLE => "→")
    ensures r.direction == UP ==> r.description == percentText + "% 증가"
    ensures r.direction == DOWN ==> r.description == percentText + "% 감소"
    ensures r.direction == STABLE ==> r.description == "변화 없음"
    ensures r.previousValue == previous && r.currentValue == current
  {
    if Rising(previous, current) then TrendAnalysis(UP, "↑", percentText + "% 증가", previous, current)
    else if Falling(previous, current) then TrendAnalysis(DOWN, "↓", percentText + "% 감소", previous, current)
    else TrendAnalysis(STABLE, "→", "변화 없음", previous, current)
  }

  /** Without a positive previous value the trend is STABLE; exactly +10 percent is STABLE too. */
  lemma TrendEdges(previous: int, current: int, text: string)
    ensures previous <= 0 ==> AnalyzeTrend(previous, current, text).direction == STABLE
    ensures AnalyzeTrend(10, 11, text).direction == STABLE
    ensures AnalyzeTrend(10, 9, text).direction == STABLE
  {
  }

  lemma {:induction false} MulPreservesOrder(k: int, x: int, y: int)
    requires k > 0
    ensures x < y <==> k * x < k * y
    decreases k
  {
    if k > 1 {
      MulPreservesOrder(k - 1, x, y);
      assert k * x == (k - 1) * x + x && k * y == (k - 1) * y + y;
    }
  }

  /**
   * The direction depends only on the ratio of the two values: scaling
   * both by k > 0 keeps it, as long as neither difference wraps.
   */
  lemma TrendScaleInvariant(previous: int, current: int, k: int, text: string)
    requires k > 0 && IsInt32(current - previous) && IsInt32(k * current - k * previous)
    ensures AnalyzeTrend(k * previous, k * current, text).direction
         == AnalyzeTrend(previous, current, text).direction
  {
    RisingScaleInvariant(previous, current, k);
    FallingScaleInvariant(previous, current, k);
  }

  lemma RisingScaleInvariant(previous: int, current: int, k: int)
    requires k > 0 && IsInt32(current - previous) && IsInt32(k * current - k * previous)
    ensures Rising(k * previous, k * current) <==> Rising(previous, current)
  {
    assert 100 * (k * current - k * previous) == k * (100 * (current - previous));
    assert 10 * (k * previous) == k * (10 * previous);
    MulPreservesOrder(k, 10 * previous, 100 * (current - previous));
    MulPreservesOrder(k, 0, previous);
  }

  lemma FallingScaleInvariant(previous: int, current: int, k: int)
    requires k > 0 && IsInt32(current - previous) && IsInt32(k * current - k * previous)
    ensures Falling(k * previous, k * current) <==> Falling(previous, current)
  {
    assert 100 * (k * current - k * previous) == k * (100 * (current - previous));
    assert -10 * (k * previous) == k * (-10 * previous);
    MulPreservesOrder(k, 100 * (current - previous), -10 * previous);
    MulPreservesOrder(k, 0, previous);
  }

  // ------------------------------------------------------ keyword frequency

  /** The characters String.split("\\s+") splits on: space, \t, \n, \u000B, \f, \r. */
  predicate IsSpace(c: char)
  {
    c == ' ' || 9 <= c as int <= 13
  }

  /** A non-empty run of non-space characters. */
  predicate IsToken(t: string)
  {
    t != [] && forall k | 0 <= k < |t| :: !IsSpace(t[k])
  }

  /** Length of the leading run of non-space characters. */
  function RunLength(s: string): (n: nat)
    ensures n <= |s|
    ensures forall k | 0 <= k < n :: !IsSpace(s[k])
    ensures n < |s| ==> IsSpace(s[n])
    decreases |s|
  {
    if s == [] || IsSpace(s[0]) then 0 else 1 + RunLength(s[1..])
  }

  /**
   * The maximal runs of non-space characters, in order. String.split also
   * yields a leading empty string when `s` starts with a space; it is
   * shorter than two characters and never counted, so it is not produced.
   */
  function Tokens(s: string): seq<string>
    decreases |s|
  {
    if s == [] then []
    else if IsSpace(s[0]) then Tokens(s[1..])
    else
      var n := RunLength(s);
      [s[..n]] + Tokens(s[n..])
  }

  /** Every token is a non-empty run of non-space characters. */
  lemma {:induction false} TokensAreRuns(s: string)
    ensures forall i | 0 <= i < |Tokens(s)| :: IsToken(Tokens(s)[i])
    decreases |s|
  {
    if s != [] {
      if IsSpace(s[0]) {
        TokensAreRuns(s[1..]);
      } else {
        TokensAreRuns(s[RunLength(s)..]);
      }
    }
  }

  function Concat(parts: seq<string>): string
  {
    if parts == [] then [] else parts[0] + Concat(parts[1..])
  }

  predicate NotSpace(c: char)
  {
    !IsSpace(c)
  }

  /** Tokens loses nothing but the spaces: together they spell the text with its spaces removed. */
  lemma {:induction false} TokensCoverText(s: string)
    ensures Concat(Tokens(s)) == Filter(s, NotSpace)
    decreases |s|
  {
    if s == [] {
    } else if IsSpace(s[0]) {
      TokensCoverText(s[1..]);
      assert Tokens(s) == Tokens(s[1..]);
      assert Filter(s, NotSpace) == Filter(s[1..], NotSpace);
    } else {
      TokensCoverText(s[RunLength(s)..]);
      ConcatTokensOfRun(s);
      FilterOfRun(s);
    }
  }

  /** A text starting with a run: its tokens spell the run, then the tokens of the rest. */
  lemma ConcatTokensOfRun(s: string)
    requires s != [] && !IsSpace(s[0])
    ensures Concat(Tokens(s)) == s[..RunLength(s)] + Concat(Tokens(s[RunLength(s)..]))
  {
    var n := RunLength(s);
    assert Tokens(s) == [s[..n]] + Tokens(s[n..]);
    assert Tokens(s)[0] == s[..n] && Tokens(s)[1..] == Tokens(s[n..]);
  }

  /** A text starting with a run keeps the whole run when its spaces are removed. */
  lemma FilterOfRun(s: string)
    requires s != [] && !IsSpace(s[0])
    ensures Filter(s, NotSpace) == s[..RunLength(s)] + Filter(s[RunLength(s)..], NotSpace)
  {
    var n := RunLength(s);
    assert s == s[..n] + s[n..];
    FilterAppend(s[..n], s[n..], NotSpace);
    FilterKeepsAll(s[..n]);
  }

  lemma {:induction false} FilterKeepsAll(t: string)
    requires forall k | 0 <= k < |t| :: !IsSpace(t[k])
    ensures Filter(t, NotSpace) == t
    decreases |t|
  {
    if t != [] {
      FilterKeepsAll(t[1..]);
    }
  }

  /** A token is a keyword when its Java length, in UTF-16 code units, is at least 2. */
  predicate IsKeyword(t: string)
  {
    Utf16Length(t) >= 2
  }

  /** The tokens of two or more characters, in order. */
  function KeywordsOf(tokens: seq<string>): (r: seq<string>)
  {
    if tokens == [] then []
    else
      var last := tokens[|tokens| - 1];
      KeywordsOf(tokens[..|tokens| - 1]) + (if IsKeyword(last) then [last] else [])
  }

  /** Every token of two or more characters of every message, in order. */
  function Words(messages: seq<string>): seq<string>
  {
    if messages == [] then []
    else Words(messages[..|messages| - 1]) + KeywordsOf(Tokens(messages[|messages| - 1]))
  }

  lemma {:induction false} KeywordsOfMembers(tokens: seq<string>, x: string)
    ensures x in KeywordsOf(tokens) <==> x in tokens && IsKeyword(x)
    decreases |tokens|
  {
    if tokens != [] {
      var init := tokens[..|tokens| - 1];
      KeywordsOfMembers(init, x);
      assert tokens == init + [tokens[|tokens| - 1]];
    }
  }

  /** `x` is a token of some message. */
  ghost predicate InSomeMessage(messages: seq<string>, x: string)
  {
    exists i | 0 <= i < |messages| :: x in Tokens(messages[i])
  }

  lemma InSomeMessageSplit(messages: seq<string>, x: string)
    requires messages != []
    ensures InSomeMessage(messages, x) <==>
      InSomeMessage(messages[..|messages| - 1], x) || x in Tokens(messages[|messages| - 1])
  {
    var n := |messages| - 1;
    if InSomeMessage(messages[..n], x) {
      var i :| 0 <= i < n && x in Tokens(messages[..n][i]);
      assert messages[i] == messages[..n][i];
    }
    if InSomeMessage(messages, x) {
      var i :| 0 <= i < |messages| && x in Tokens(messages[i]);
      if i < n {
        assert messages[..n][i] == messages[i];
      }
    }
  }

  /** The counted words are exactly the tokens of two or more characters of some message. */
  lemma {:induction false} WordsMembers(messages: seq<string>, x: string)
    ensures x in Words(messages) <==> IsKeyword(x) && InSomeMessage(messages, x)
    decreases |messages|
  {
    if messages != [] {
      var n := |messages| - 1;
      WordsMembers(messages[..n], x);
      KeywordsOfMembers(Tokens(messages[n]), x);
      InSomeMessageSplit(messages, x);
    }
  }

  lemma {:induction false} RunLengthOfToken(w: string, rest: string)
    requires IsToken(w) && (rest == [] || IsSpace(rest[0]))
    ensures RunLength(w + rest) == |w|
    decreases |w|
  {
    if |w| > 1 {
      RunLengthOfToken(w[1..], rest);
      assert (w + rest)[1..] == w[1..] + rest;
    } else {
      assert (w + rest)[1..] == rest;
    }
  }

  /** A token followed by a space or the end of the text is the first token. */
  lemma TokensCons(w: string, rest: string)
    requires IsToken(w) && (rest == [] || IsSpace(rest[0]))
    ensures Tokens(w + rest) == [w] + Tokens(rest)
  {
    RunLengthOfToken(w, rest);
    assert (w + rest)[..|w|] == w && (w + rest)[|w|..] == rest;
  }

  /** A token and a space come off the front of the text as one token. */
  lemma TokensOfWordThenText(x: string, rest: string)
    requires IsToken(x)
    ensures Tokens(x + " " + rest) == [x] + Tokens(rest)
  {
    TokensCons(x, " " + rest);
    assert x + " " + rest == x + (" " + rest);
    assert (" " + rest)[1..] == rest;
  }

  lemma TokensOfTwoWords(x: string, y: string)
    requires IsToken(x) && IsToken(y)
    ensures Tokens(x + " " + y) == [x, y]
  {
    TokensOfWordThenText(x, y);
    TokensCons(y, "");
    assert y + "" == y;
  }

  lemma {:induction false} KeywordsOfKeywords(ts: seq<string>)
    requires forall i | 0 <= i < |ts| :: IsKeyword(ts[i])
    ensures KeywordsOf(ts) == ts
    decreases |ts|
  {
    if ts != [] {
      var init := ts[..|ts| - 1];
      assert forall i | 0 <= i < |init| :: init[i] == ts[i];
      KeywordsOfKeywords(init);
      assert IsKeyword(ts[|ts| - 1]);
      assert ts == init + [ts[|ts| - 1]];
    }
  }

  lemma WordsOfTwo(m1: string, m2: string)
    ensures Words([m1, m2]) == KeywordsOf(Tokens(m1)) + KeywordsOf(Tokens(m2))
  {
    assert [m1, m2][..1] == [m1] && [m1][..0] == [];
    assert Words([m1]) == Words([]) + KeywordsOf(Tokens(m1));
  }

  lemma KeywordExampleWords(x: string, y: string, z: string)
    requires IsToken(x) && IsToken(y) && IsToken(z)
    requires IsKeyword(x) && IsKeyword(y) && IsKeyword(z)
    ensures Words([x + " " + y + " " + y, z + " " + x]) == [x, y, y, z, x]
  {
    var m1, m2 := x + " " + y + " " + y, z + " " + x;
    TokensOfThreeWords(x, y);
    TokensOfTwoWords(z, x);
    KeywordsOfKeywords([x, y, y]);
    KeywordsOfKeywords([z, x]);
    WordsOfTwo(m1, m2);
    assert [x, y, y] + [z, x] == [x, y, y, z, x];
  }

  lemma TokensOfThreeWords(x: string, y: string)
    requires IsToken(x) && IsToken(y)
    ensures Tokens(x + " " + y + " " + y) == [x, y, y]
  {
    TokensOfTwoWords(y, y);
    TokensOfWordThenText(x, y + " " + y);
    assert x + " " + y + " " + y == x + " " + (y + " " + y);
  }

  /**
   * The messages "x y y" and "z x" with distinct keywords x, y, z (as in
   * "aa bb bb" and "cc aa") give x and y twice and z once, all tagged DOWN.
   */
  lemma KeywordExample(x: string, y: string, z: string)
    requires IsToken(x) && IsToken(y) && IsToken(z)
    requires IsKeyword(x) && IsKeyword(y) && IsKeyword(z)
    requires x != y && y != z && x != z
    ensures var m := multiset(Words([x + " " + y + " " + y, z + " " + x]));
      m[x] == 2 && m[y] == 2 && m[z] == 1
    ensures TrendForCount(2) == DOWN && TrendForCount(1) == DOWN
  {
    KeywordExampleWords(x, y, z);
    assert multiset([x, y, y, z, x]) == multiset{x, x, y, y, z};
  }

  function TrendForCount(count: int): (d: Direction)
    ensures d == UP <==> count > 15
    ensures d == DOWN <==> count < 5
    ensures d == STABLE <==> 5 <= count <= 15
  {
    if count > 15 then UP else if count < 5 then DOWN else STABLE
  }

  datatype KeywordFrequency = KeywordFrequency(keyword: string, count: int, trend: Direction)

  const MaxKeywords: nat := 20

  /** `counts` holds the occurrences of every word of `done`, and `keys` lists the map's keys once each. */
  ghost predicate Counted(counts: map<string, int>, keys: seq<string>, done: seq<string>)
  {
    && (forall w :: w in counts <==> w in done)
    && (forall w | w in counts :: counts[w] == multiset(done)[w])
    && NoDuplicates(keys)
    && (forall w :: w in keys <==> w in counts)
  }

  /** One Map.merge(word, 1, Integer::sum) step. */
  method Merge(counts: map<string, int>, keys: seq<string>, word: string, ghost done: seq<string>)
    returns (counts': map<string, int>, keys': seq<string>)
    requires Counted(counts, keys, done)
    ensures Counted(counts', keys', done + [word])
    ensures keys <= keys'
  {
    if word in counts {
      counts', keys' := counts[word := counts[word] + 1], keys;
    } else {
      counts', keys' := counts[word := 1], keys + [word];
    }
    assert multiset(done + [word]) == multiset(done) + multiset{word};
  }

  /** The inner loop: the keywords of one message's tokens, merged in order. */
  method CountTokens(counts: map<string, int>, keys: seq<string>, words: seq<string>, ghost done: seq<string>)
    returns (counts': map<string, int>, keys': seq<string>)
    requires Counted(counts, keys, done)
    ensures Counted(counts', keys', done + KeywordsOf(words))
  {
    counts', keys' := counts, keys;
    ghost var acc := done;
    var j := 0;
    while j < |words|
      invariant 0 <= j <= |words|
      invariant acc == done + KeywordsOf(words[..j])
      invariant Counted(counts', keys', acc)
    {
      assert words[..j + 1][..j] == words[..j];
      if IsKeyword(words[j]) {
        counts', keys' := Merge(counts', keys', words[j], acc);
        acc := acc + [words[j]];
      }
      j := j + 1;
    }
    assert words[..j] == words;
  }

  /** The counting loop: every keyword of every message, merged into a map. */
  method CountKeywords(messages: seq<string>) returns (counts: map<string, int>, keys: seq<string>)
    ensures Counted(counts, keys, Words(messages))
  {
    counts, keys := map[], [];
    var i := 0;
    while i < |messages|
      invariant 0 <= i <= |messages|
      invariant Counted(counts, keys, Words(messages[..i]))
    {
      counts, keys := CountTokens(counts, keys, Tokens(messages[i]), Words(messages[..i]));
      assert messages[..i + 1][..i] == messages[..i];
      i := i + 1;
    }
    assert messages[..i] == messages;
  }

  function ByCount(f: KeywordFrequency): Rank
  {
    Desc(f.count)
  }

  /**
   * The top keywords: at most 20 distinct keywords of `messages`, each with
   * its exact count and the tag for that count, by non-increasing count; a
   * keyword left out has no more occurrences than the last one listed.
   */
  method AnalyzeKeywordFrequency(messages: seq<string>) returns (r: seq<KeywordFrequency>)
    ensures |r| <= MaxKeywords
    ensures forall i | 0 <= i < |r| ::
      && r[i].keyword in Words(messages)
      && r[i].count == multiset(Words(messages))[r[i].keyword]
      && r[i].trend == TrendForCount(r[i].count)
    ensures forall i, j | 0 <= i < j < |r| :: r[i].count >= r[j].count
    ensures forall i, j | 0 <= i < j < |r| :: r[i].keyword != r[j].keyword
    ensures forall w | w in Words(messages) ::
      (exists i | 0 <= i < |r| :: r[i].keyword == w)
      || (|r| == MaxKeywords && multiset(Words(messages))[w] <= r[|r| - 1].count)
  {
    var counts, keys := CountKeywords(messages);
    r := TopFrequencies(counts, keys);
    TopFrequenciesSpec(counts, keys, Words(messages));
  }

  /** The stream part: one entry per counted keyword, sorted by count (stable), the first 20. */
  function TopFrequencies(counts: map<string, int>, keys: seq<string>): seq<KeywordFrequency>
    requires forall w | w in keys :: w in counts
  {
    var entries := seq(|keys|, i requires 0 <= i < |keys| =>
      KeywordFrequency(keys[i], counts[keys[i]], TrendForCount(counts[keys[i]])));
    Take(SortBy(entries, ByCount), MaxKeywords)
  }

  lemma TopFrequenciesSpec(counts: map<string, int>, keys: seq<string>, words: seq<string>)
    requires Counted(counts, keys, words)
    ensures var r := TopFrequencies(counts, keys);
      && |r| <= MaxKeywords
      && (forall i | 0 <= i < |r| ::
            && r[i].keyword in words
            && r[i].count == multiset(words)[r[i].keyword]
            && r[i].trend == TrendForCount(r[i].count))
      && (forall i, j | 0 <= i < j < |r| :: r[i].count >= r[j].count)
      && (forall i, j | 0 <= i < j < |r| :: r[i].keyword != r[j].keyword)
      && (forall w | w in words ::
            (exists i | 0 <= i < |r| :: r[i].keyword == w)
            || (|r| == MaxKeywords && multiset(words)[w] <= r[|r| - 1].count))
  {
    var entries := seq(|keys|, i requires 0 <= i < |keys| =>
      KeywordFrequency(keys[i], counts[keys[i]], TrendForCount(counts[keys[i]])));
    var sorted := SortBy(entries, ByCount);
    assert TopFrequencies(counts, keys) == Take(sorted, MaxKeywords);
    SortBySorted(entries, ByCount);
    SortedEntries(counts, keys, words, entries, sorted);
    TopKeywords(counts, keys, words, sorted, Take(sorted, MaxKeywords));
  }

  /** `e` is the frequency entry built for its keyword from `counts`. */
  ghost predicate IsEntry(counts: map<string, int>, e: KeywordFrequency)
  {
    e.keyword in counts && e == KeywordFrequency(e.keyword, counts[e.keyword], TrendForCount(counts[e.keyword]))
  }

  /** The sorted entries are entries, once each, and every key has one. */
  lemma SortedEntries(counts: map<string, int>, keys: seq<string>, words: seq<string>, entries: seq<KeywordFrequency>,
                      sorted: seq<KeywordFrequency>)
    requires Counted(counts, keys, words)
    requires |entries| == |keys|
    requires forall i | 0 <= i < |keys| ::
      entries[i] == KeywordFrequency(keys[i], counts[keys[i]], TrendForCount(counts[keys[i]]))
    requires multiset(sorted) == multiset(entries)
    ensures forall i | 0 <= i < |sorted| :: IsEntry(counts, sorted[i])
    ensures NoDuplicates(sorted)
    ensures forall w | w in counts :: exists p | 0 <= p < |sorted| :: sorted[p].keyword == w
  {
    assert NoDuplicates(entries) by {
      forall i, j | 0 <= i < j < |entries| ensures entries[i] != entries[j] {
        assert keys[i] != keys[j];
      }
    }
    NoDuplicatesMultiset(entries);
    NoDuplicatesMultiset(sorted);
    forall i | 0 <= i < |sorted| ensures IsEntry(counts, sorted[i]) {
      assert sorted[i] in multiset(entries);
    }
    forall w | w in counts ensures exists p | 0 <= p < |sorted| :: sorted[p].keyword == w {
      var m :| 0 <= m < |keys| && keys[m] == w;
      assert entries[m] in multiset(sorted);
    }
  }

  /** An entry beyond the cut counts no more than the last entry kept. */
  lemma CutKeepsTheLargest(sorted: seq<KeywordFrequency>, r: seq<KeywordFrequency>, p: int)
    requires SortedBy(sorted, ByCount)
    requires r == Take(sorted, MaxKeywords)
    requires 0 <= p < |sorted|
    ensures (exists i | 0 <= i < |r| :: r[i].keyword == sorted[p].keyword)
         || (|r| == MaxKeywords && sorted[p].count <= r[|r| - 1].count)
  {
    if p < |r| {
      assert r[p] == sorted[p];
    } else {
      assert r[|r| - 1] == sorted[|r| - 1];
      assert RankLe(ByCount(sorted[|r| - 1]), ByCount(sorted[p]));
    }
  }

  /** The properties of the cut, proved from the counting and the sort. */
  lemma TopKeywords(counts: map<string, int>, keys: seq<string>, words: seq<string>,
                    sorted: seq<KeywordFrequency>, r: seq<KeywordFrequency>)
    requires Counted(counts, keys, words)
    requires forall i | 0 <= i < |sorted| :: IsEntry(counts, sorted[i])
    requires NoDuplicates(sorted)
    requires forall w | w in counts :: exists p | 0 <= p < |sorted| :: sorted[p].keyword == w
    requires SortedBy(sorted, ByCount)
    requires r == Take(sorted, MaxKeywords)
    ensures forall i | 0 <= i < |r| ::
      && r[i].keyword in words
      && r[i].count == multiset(words)[r[i].keyword]
      && r[i].trend == TrendForCount(r[i].count)
    ensures forall i, j | 0 <= i < j < |r| :: r[i].count >= r[j].count
    ensures forall i, j | 0 <= i < j < |r| :: r[i].keyword != r[j].keyword
    ensures forall w | w in words ::
      (exists i | 0 <= i < |r| :: r[i].keyword == w)
      || (|r| == MaxKeywords && multiset(words)[w] <= r[|r| - 1].count)
  {
    forall i | 0 <= i < |r|
      ensures r[i].keyword in words && r[i].count == multiset(words)[r[i].keyword]
      ensures r[i].trend == TrendForCount(r[i].count)
    {
      assert r[i] == sorted[i] && IsEntry(counts, sorted[i]);
    }
    forall i, j | 0 <= i < j < |r| ensures r[i].keyword != r[j].keyword {
      assert r[i] == sorted[i] && r[j] == sorted[j];
      assert IsEntry(counts, sorted[i]) && IsEntry(counts, sorted[j]);
    }
    forall i, j | 0 <= i < j < |r| ensures r[i].count >= r[j].count {
      assert RankLe(ByCount(sorted[i]), ByCount(sorted[j]));
    }
    forall w | w in words
      ensures (exists i | 0 <= i < |r| :: r[i].keyword == w)
           || (|r| == MaxKeywords && multiset(words)[w] <= r[|r| - 1].count)
    {
      var p :| 0 <= p < |sorted| && sorted[p].keyword == w;
      assert IsEntry(counts, sorted[p]);
      CutKeepsTheLargest(sorted, r, p);
    }
  }
}
