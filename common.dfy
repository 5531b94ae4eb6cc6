/**
 * Shared vocabulary of the model: optional values, clock arithmetic,
 * string helpers (substring search, ASCII lower-casing, joining, decimal
 * rendering) and the sequence helpers that stand for the stream operations
 * and the ORDER BY clauses of the repositories (filter, stable sort by a key,
 * distinct, limit).
 *
 * Time is an integer number of seconds since 1970-01-01T00:00 (local time,
 * as LocalDateTime has no zone); a date is a day number since that day.
 */
module Common {

  datatype Option<T> = None | Some(value: T)

  /**
   * The exceptions the services raise, by their Java class:
   * IllegalArgumentException, IllegalStateException, InvalidTokenException,
   * UserNotFoundException, and RuntimeException (an AI call or a JSON parse
   * that failed).
   */
  datatype Failure = IllegalArgument | IllegalState | InvalidToken | UserNotFound | Runtime

  /** A value, or the exception raised instead of returning one. */
  datatype Result<T> = Success(value: T) | Failure(error: Failure)

  // ---------------------------------------------------------------- time

  const SecondsPerMinute: int := 60
  const SecondsPerHour: int := 3600
  const SecondsPerDay: int := 86400

  /** Day number of an instant (LocalDateTime.toLocalDate). */
  function DayOf(t: int): (d: int)
    ensures d * SecondsPerDay <= t < (d + 1) * SecondsPerDay
  {
    t / SecondsPerDay
  }

  /** Hour of the day of an instant (LocalDateTime.getHour). */
  function HourOf(t: int): (h: int)
    ensures 0 <= h < 24
    ensures DayOf(t) * SecondsPerDay + h * SecondsPerHour <= t < DayOf(t) * SecondsPerDay + (h + 1) * SecondsPerHour
  {
    (t % SecondsPerDay) / SecondsPerHour
  }

  /**
   * ISO-8601 day of the week of a day number, Monday = 1 ... Sunday = 7
   * (DayOfWeek.getValue); day 0, 1970-01-01, was a Thursday.
   */
  function DayOfWeek(day: int): (w: int)
    ensures 1 <= w <= 7
  {
    (day + 3) % 7 + 1
  }

  const Monday: int := 1
  const Sunday: int := 7

  /**
   * Whole days from a to b, truncated toward zero (ChronoUnit.DAYS.between
   * on two LocalDateTime values).
   */
  function DaysBetween(a: int, b: int): (n: int)
    ensures a <= b ==> n >= 0 && n * SecondsPerDay <= b - a < (n + 1) * SecondsPerDay
    ensures b <= a ==> n <= 0 && (-n) * SecondsPerDay <= a - b < (-n + 1) * SecondsPerDay
  {
    if a <= b then (b - a) / SecondsPerDay else -((a - b) / SecondsPerDay)
  }

  /**
   * A LocalDateTime at full precision: a whole second and the nanoseconds
   * past it. Most instants here are kept as whole seconds; the report
   * period keeps the sub-second part because it is compared for equality.
   */
  datatype Instant = Instant(seconds: int, nanos: int)

  const NanosPerSecond: int := 1000000000

  predicate ValidInstant(i: Instant)
  {
    0 <= i.nanos < NanosPerSecond
  }

  /** The whole-second time t is at or after the instant. */
  predicate AtOrAfter(t: int, i: Instant)
  {
    t > i.seconds || (t == i.seconds && i.nanos == 0)
  }

  /** The whole-second time t is at or before the instant. */
  predicate AtOrBefore(t: int, i: Instant)
  {
    t <= i.seconds
  }

  /** The first whole second at or after the instant. */
  function CeilSeconds(i: Instant): (t: int)
    ensures AtOrAfter(t, i) && !AtOrAfter(t - 1, i)
  {
    if i.nanos == 0 then i.seconds else i.seconds + 1
  }

  // ------------------------------------------------------------- strings

  /** `sub` occurs in `s` (String.contains, and SQL LIKE '%sub%'). */
  predicate Contains(s: string, sub: string)
    decreases |s|
  {
    sub <= s || (s != [] && Contains(s[1..], sub))
  }

  /** `sub` occurs in `s` at offset `i`. */
  predicate OccursAt(s: string, sub: string, i: int)
  {
    0 <= i && i + |sub| <= |s| && s[i..i + |sub|] == sub
  }

  /** Contains holds exactly when `sub` occurs at some offset of `s`. */
  lemma {:induction false} ContainsIffOccurs(s: string, sub: string)
    ensures Contains(s, sub) <==> exists i :: OccursAt(s, sub, i)
  {
    if Contains(s, sub) {
      var i := ContainsAt(s, sub);
    }
    if exists i :: OccursAt(s, sub, i) {
      var i :| OccursAt(s, sub, i);
      OccursContains(s, sub, i);
    }
  }

  /** An offset at which a contained `sub` occurs. */
  lemma {:induction false} ContainsAt(s: string, sub: string) returns (i: int)
    requires Contains(s, sub)
    ensures OccursAt(s, sub, i)
    decreases |s|
  {
    if sub <= s {
      i := 0;
      assert s[0..|sub|] == sub;
    } else {
      var j := ContainsAt(s[1..], sub);
      i := j + 1;
      assert s[1..][j..j + |sub|] == s[i..i + |sub|];
    }
  }

  /** An occurrence at any offset makes `sub` contained. */
  lemma {:induction false} OccursContains(s: string, sub: string, i: int)
    requires OccursAt(s, sub, i)
    ensures Contains(s, sub)
    decreases i
  {
    if i == 0 {
      assert s[..|sub|] == sub;
    } else {
      assert s[1..][i - 1..i - 1 + |sub|] == s[i..i + |sub|];
      OccursContains(s[1..], sub, i - 1);
    }
  }

  /** ASCII lower-casing of one character. */
  function LowerChar(c: char): char
  {
    if 'A' <= c <= 'Z' then (c as int + 32) as char else c
  }

  const Int32Modulus: int := 0x1_0000_0000
  const MinInt32: int := -0x8000_0000

  /** The values of a Java int. */
  predicate IsInt32(x: int)
  {
    MinInt32 <= x < -MinInt32
  }

  /**
   * Java int arithmetic: the exact result taken modulo 2^32 into the
   * signed range, so a sum past the largest int comes out negative.
   */
  function Wrap32(x: int): (r: int)
    ensures IsInt32(r) && (x - r) % Int32Modulus == 0
    ensures IsInt32(x) ==> r == x
    ensures x >= -MinInt32 && x < -MinInt32 + Int32Modulus ==> r == x - Int32Modulus
  {
    (x - MinInt32) % Int32Modulus + MinInt32
  }

  /**
   * String.length(): the number of UTF-16 code units, so a character
   * outside the Basic Multilingual Plane counts twice.
   */
  function Utf16Length(s: string): (n: nat)
    ensures |s| <= n <= 2 * |s|
    ensures n == |s| <==> forall k | 0 <= k < |s| :: (s[k] as int) < 0x10000
    decreases |s|
  {
    if s == [] then 0
    else
      var rest := Utf16Length(s[1..]);
      assert forall k | 1 <= k < |s| :: s[k] == s[1..][k - 1];
      (if (s[0] as int) < 0x10000 then 1 else 2) + rest
  }

  /**
   * String.toLowerCase, on the ASCII letters only: letters outside A-Z,
   * which Java also lower-cases, are kept as they are.
   */
  function ToLower(s: string): (r: string)
    ensures |r| == |s|
    ensures forall i | 0 <= i < |s| :: r[i] == LowerChar(s[i])
    ensures forall i | 0 <= i < |s| :: !('A' <= r[i] <= 'Z')
  {
    seq(|s|, i requires 0 <= i < |s| => LowerChar(s[i]))
  }

  /** String.join(sep, parts). */
  function Join(parts: seq<string>, sep: string): string
  {
    if |parts| == 0 then ""
    else if |parts| == 1 then parts[0]
    else parts[0] + sep + Join(parts[1..], sep)
  }

  /** Every part occurs in the joined text. */
  lemma {:induction false} JoinContains(parts: seq<string>, sep: string, i: int)
    requires 0 <= i < |parts|
    ensures Contains(Join(parts, sep), parts[i])
    decreases |parts|
  {
    var s := Join(parts, sep);
    ContainsIffOccurs(s, parts[i]);
    if i == 0 {
      if |parts| > 1 {
        assert s == parts[0] + (sep + Join(parts[1..], sep));
      }
      assert OccursAt(s, parts[0], 0);
    } else {
      JoinContains(parts[1..], sep, i - 1);
      assert s == (parts[0] + sep) + Join(parts[1..], sep);
      ContainsAfterPrefix(parts[0] + sep, Join(parts[1..], sep), parts[i]);
    }
  }

  /** Text found in `t` is still found once something is put before it. */
  lemma ContainsAfterPrefix(pre: string, t: string, sub: string)
    requires Contains(t, sub)
    ensures Contains(pre + t, sub)
  {
    ContainsIffOccurs(t, sub);
    ContainsIffOccurs(pre + t, sub);
    var j :| OccursAt(t, sub, j);
    assert (pre + t)[|pre| + j..|pre| + j + |sub|] == t[j..j + |sub|];
    assert OccursAt(pre + t, sub, |pre| + j);
  }

  /** A join of several parts starts with the first part. */
  lemma JoinStartsWithFirst(parts: seq<string>, sep: string)
    requires parts != []
    ensures parts[0] <= Join(parts, sep)
  {
    if |parts| > 1 {
      assert Join(parts, sep) == parts[0] + (sep + Join(parts[1..], sep));
    }
  }

  function DigitChar(d: int): char
    requires 0 <= d < 10
  {
    "0123456789"[d]
  }

  predicate IsDigit(c: char)
  {
    '0' <= c <= '9'
  }

  /** Decimal rendering of a natural number (String.valueOf). */
  function NatToString(n: nat): (s: string)
    ensures |s| >= 1
    ensures forall i | 0 <= i < |s| :: IsDigit(s[i])
  {
    if n < 10 then [DigitChar(n)] else NatToString(n / 10) + [DigitChar(n % 10)]
  }

  function Pow10(k: nat): (p: nat)
    ensures p >= 1
  {
    if k == 0 then 1 else 10 * Pow10(k - 1)
  }

  /** The number a string of decimal digits denotes (Integer.parseInt without a sign). */
  function DigitsValue(s: string): int
  {
    if s == [] then 0 else 10 * DigitsValue(s[..|s| - 1]) + (s[|s| - 1] as int - '0' as int)
  }

  lemma DigitCharValue(d: int)
    requires 0 <= d < 10
    ensures DigitChar(d) as int - '0' as int == d
  {
    if d == 0 {} else if d == 1 {} else if d == 2 {} else if d == 3 {} else if d == 4 {}
    else if d == 5 {} else if d == 6 {} else if d == 7 {} else if d == 8 {} else {}
  }

  /** Reading back the rendering of n gives n. */
  lemma {:induction false} NatToStringValue(n: nat)
    ensures DigitsValue(NatToString(n)) == n
    decreases n
  {
    var s := NatToString(n);
    if n < 10 {
      DigitCharValue(n);
      assert s[..0] == [];
    } else {
      NatToStringValue(n / 10);
      DigitCharValue(n % 10);
      assert s[..|s| - 1] == NatToString(n / 10);
    }
  }

  /** A number with k + 1 digits renders as k + 1 characters, the first of them not '0'. */
  lemma {:induction false} NatToStringLength(n: nat, k: nat)
    requires Pow10(k) <= n < Pow10(k + 1)
    ensures |NatToString(n)| == k + 1
    ensures NatToString(n)[0] != '0'
    decreases k
  {
    if k == 0 {
      assert 1 <= n < 10;
      DigitCharValue(n);
    } else {
      assert Pow10(k - 1) <= n / 10 < Pow10(k);
      NatToStringLength(n / 10, k - 1);
      assert NatToString(n)[0] == NatToString(n / 10)[0];
    }
  }

  /** Decimal rendering of an integer, with a leading '-' when negative. */
  function IntToString(n: int): string
  {
    if n < 0 then "-" + NatToString(-n) else NatToString(n)
  }

  /** Zero-padded decimal rendering of 0 <= n < 10^width ("%02d" and friends). */
  function PadNat(n: nat, width: nat): (s: string)
    ensures |s| >= width
  {
    var digits := NatToString(n);
    if |digits| >= width then digits else seq(width - |digits|, _ => '0') + digits
  }

  /** Zero-padded decimal rendering of an integer, with a leading '-' when negative. */
  function PadInt(n: int, width: nat): string
  {
    if n < 0 then "-" + PadNat(-n, width) else PadNat(n, width)
  }

  predicate IsLeapYear(y: int)
  {
    y % 4 == 0 && (y % 100 != 0 || y % 400 == 0)
  }

  function YearLength(y: int): int
  {
    if IsLeapYear(y) then 366 else 365
  }

  /** The year and 0-based day of year of the day `d` days after January 1 of year `y`. */
  function YearAndDay(y: int, d: int): (int, int)
    decreases if d < 0 then 366 - d else d
  {
    if d < 0 then YearAndDay(y - 1, d + YearLength(y - 1))
    else if d < YearLength(y) then (y, d)
    else YearAndDay(y + 1, d - YearLength(y))
  }

  function MonthLength(month: int, leap: bool): int
  {
    if month == 2 then (if leap then 29 else 28)
    else if month == 4 || month == 6 || month == 9 || month == 11 then 30
    else 31
  }

  /** The month and day of month of the 0-based day `d` counted from the 1st of `month`. */
  function MonthAndDay(d: int, month: int, leap: bool): (int, int)
    decreases 12 - month
  {
    if month >= 12 || d < MonthLength(month, leap) then (month, d + 1)
    else MonthAndDay(d - MonthLength(month, leap), month + 1, leap)
  }

  /**
   * ISO-8601 date text "yyyy-MM-dd" of a day number (LocalDate.toString,
   * for years 0 to 9999).
   */
  function IsoDate(day: int): string
  {
    var (year, dayOfYear) := YearAndDay(1970, day);
    var (month, dayOfMonth) := MonthAndDay(dayOfYear, 1, IsLeapYear(year));
    PadInt(year, 4) + "-" + PadInt(month, 2) + "-" + PadInt(dayOfMonth, 2)
  }

  // ----------------------------------------------------------- sequences

  /** `r` is `s` with some elements dropped and the others kept in their order. */
  ghost predicate IsSubsequence<T>(r: seq<T>, s: seq<T>)
    decreases |s|
  {
    if r == [] then true
    else if s == [] then false
    else if r[0] == s[0] then IsSubsequence(r[1..], s[1..])
    else IsSubsequence(r, s[1..])
  }

  /** Stream.findFirst after a filter: an element that satisfies p, the first one (FindFirstIsFirst). */
  function FindFirst<T>(s: seq<T>, p: T -> bool): (r: Option<T>)
    ensures r.Some? ==> r.value in s && p(r.value)
    ensures r.None? <==> forall i | 0 <= i < |s| :: !p(s[i])
    decreases |s|
  {
    if s == [] then None
    else if p(s[0]) then Some(s[0])
    else
      var r := FindFirst(s[1..], p);
      assert forall i | 1 <= i < |s| :: s[i] == s[1..][i - 1];
      r
  }

  /** What FindFirst finds sits at an index before which no element satisfies p. */
  lemma {:induction false} FindFirstIsFirst<T>(s: seq<T>, p: T -> bool)
    ensures FindFirst(s, p).Some? ==>
              exists i | 0 <= i < |s| :: s[i] == FindFirst(s, p).value && forall j | 0 <= j < i :: !p(s[j])
    decreases |s|
  {
    if s != [] && !p(s[0]) {
      FindFirstIsFirst(s[1..], p);
      if FindFirst(s, p).Some? {
        var i :| 0 <= i < |s[1..]| && s[1..][i] == FindFirst(s, p).value && forall j | 0 <= j < i :: !p(s[1..][j]);
        assert s[i + 1] == FindFirst(s, p).value;
        assert forall j | 0 <= j < i + 1 :: !p(s[j]) by {
          forall j | 0 <= j < i + 1 ensures !p(s[j]) {
            if j > 0 {
              assert s[j] == s[1..][j - 1];
            }
          }
        }
      }
    } else if s != [] {
      assert s[0] == FindFirst(s, p).value;
    }
  }

  /** The elements of `s` satisfying `p`, in order (Stream.filter). */
  function Filter<T>(s: seq<T>, p: T -> bool): (r: seq<T>)
    ensures |r| <= |s|
    ensures forall i | 0 <= i < |r| :: p(r[i]) && r[i] in s
    ensures forall i | 0 <= i < |s| :: p(s[i]) ==> s[i] in r
  {
    if s == [] then []
    else if p(s[0]) then [s[0]] + Filter(s[1..], p)
    else Filter(s[1..], p)
  }

  /** Filter keeps every copy of an element that satisfies `p` and no copy of any other. */
  lemma {:induction false} FilterCount<T>(s: seq<T>, p: T -> bool, x: T)
    ensures multiset(Filter(s, p))[x] == if p(x) then multiset(s)[x] else 0
    decreases |s|
  {
    if s != [] {
      FilterCount(s[1..], p, x);
      assert s == [s[0]] + s[1..];
      if p(s[0]) {
        assert Filter(s, p) == [s[0]] + Filter(s[1..], p);
      }
    }
  }

  /**
   * Filter drops no copy of a kept element and invents none: every element
   * that satisfies `p` occurs in the result as often as in `s`.
   */
  lemma FilterCounts<T>(s: seq<T>, p: T -> bool)
    ensures multiset(Filter(s, p)) <= multiset(s)
    ensures forall x | x in s && p(x) :: multiset(Filter(s, p))[x] == multiset(s)[x]
  {
    forall x
      ensures multiset(Filter(s, p))[x] <= multiset(s)[x]
      ensures p(x) ==> multiset(Filter(s, p))[x] == multiset(s)[x]
    {
      FilterCount(s, p, x);
    }
  }

  /** Filter keeps the order of the elements it keeps. */
  lemma {:induction false} FilterIsSubsequence<T>(s: seq<T>, p: T -> bool)
    ensures IsSubsequence(Filter(s, p), s)
    decreases |s|
  {
    if s != [] {
      FilterIsSubsequence(s[1..], p);
      if !p(s[0]) {
        SkipHead(Filter(s, p), s);
      }
    }
  }

  /** A subsequence of the tail is a subsequence of the whole. */
  lemma {:induction false} SkipHead<T>(r: seq<T>, s: seq<T>)
    requires s != [] && IsSubsequence(r, s[1..])
    ensures IsSubsequence(r, s)
    decreases |s|, 0
  {
    if r != [] && r[0] == s[0] {
      SubsequenceTail(r, s[1..]);
    }
  }

  /** A subsequence with its head dropped is still a subsequence. */
  lemma {:induction false} SubsequenceTail<T>(r: seq<T>, s: seq<T>)
    requires r != [] && IsSubsequence(r, s)
    ensures IsSubsequence(r[1..], s)
    decreases |s|, 1
  {
    if r[0] != s[0] {
      SubsequenceTail(r, s[1..]);
    }
    SkipHead(r[1..], s);
  }

  /** A filter that every element passes keeps the sequence as it is. */
  lemma {:induction false} FilterAll<T>(s: seq<T>, p: T -> bool)
    requires forall i | 0 <= i < |s| :: p(s[i])
    ensures Filter(s, p) == s
    decreases |s|
  {
    if s != [] {
      FilterAll(s[1..], p);
    }
  }

  lemma FilterAppend<T>(a: seq<T>, b: seq<T>, p: T -> bool)
    ensures Filter(a + b, p) == Filter(a, p) + Filter(b, p)
  {
    if a == [] {
      assert a + b == b;
    } else {
      assert (a + b)[1..] == a[1..] + b;
    }
  }

  /** `f` applied to every element, in order (Stream.map). */
  function Map<A, B>(s: seq<A>, f: A -> B): (r: seq<B>)
    ensures |r| == |s|
    ensures forall i | 0 <= i < |s| :: r[i] == f(s[i])
  {
    seq(|s|, i requires 0 <= i < |s| => f(s[i]))
  }

  /** The first `n` elements, or all of them when there are fewer (Stream.limit). */
  function Take<T>(s: seq<T>, n: nat): (r: seq<T>)
    ensures |r| == if |s| <= n then |s| else n
    ensures r <= s
  {
    if |s| <= n then s else s[..n]
  }

  predicate NoDuplicates<T(==)>(s: seq<T>)
  {
    forall i, j | 0 <= i < j < |s| :: s[i] != s[j]
  }

  /** A sequence has no repeated element exactly when its multiset holds each at most once. */
  lemma {:induction false} NoDuplicatesMultiset<T>(s: seq<T>)
    ensures NoDuplicates(s) <==> forall x :: multiset(s)[x] <= 1
    decreases |s|
  {
    if s != [] {
      var t, y := s[..|s| - 1], s[|s| - 1];
      assert s == t + [y];
      NoDuplicatesMultiset(t);
      if NoDuplicates(s) {
        assert NoDuplicates(t) by {
          forall i, j | 0 <= i < j < |t| ensures t[i] != t[j] {
            assert t[i] == s[i] && t[j] == s[j];
          }
        }
      } else {
        var i, j :| 0 <= i < j < |s| && s[i] == s[j];
        if j < |s| - 1 {
          assert t[i] == t[j];
          assert !NoDuplicates(t);
          var x :| multiset(t)[x] > 1;
          assert multiset(s)[x] == multiset(t)[x] + multiset([y])[x];
        } else {
          assert s[i] in t;
          assert multiset(s)[y] == multiset(t)[y] + 1;
        }
      }
    }
  }

  /** The elements of `s` without repetitions, in first-occurrence order (Stream.distinct). */
  function Distinct<T(==,!new)>(s: seq<T>): (r: seq<T>)
    ensures NoDuplicates(r)
    ensures forall x :: x in r <==> x in s
    ensures |r| <= |s|
  {
    if s == [] then []
    else
      var d := Distinct(s[..|s| - 1]);
      assert forall x :: x in s <==> x in s[..|s| - 1] || x == s[|s| - 1] by {
        assert s == s[..|s| - 1] + [s[|s| - 1]];
      }
      if s[|s| - 1] in d then d else d + [s[|s| - 1]]
  }

  /** Distinct of a concatenation starts with Distinct of the left part. */
  lemma {:induction false} DistinctPrefix<T(!new)>(a: seq<T>, b: seq<T>)
    ensures Distinct(a) <= Distinct(a + b)
    decreases |b|
  {
    if b == [] {
      assert a + b == a;
    } else {
      var ab := a + b;
      assert ab[..|ab| - 1] == a + b[..|b| - 1];
      DistinctPrefix(a, b[..|b| - 1]);
    }
  }

  /**
   * A lexicographic sort key: ORDER BY major, minor. Descending orders
   * use negated keys.
   */
  datatype Rank = Rank(major: int, minor: int)

  predicate RankLe(a: Rank, b: Rank)
  {
    a.major < b.major || (a.major == b.major && a.minor <= b.minor)
  }

  /** `s` is ordered by `key`. */
  ghost predicate SortedBy<T>(s: seq<T>, key: T -> Rank)
  {
    forall i, j | 0 <= i < j < |s| :: RankLe(key(s[i]), key(s[j]))
  }

  /** Insert `x` before the first element whose key is not smaller. */
  function InsertBy<T>(x: T, s: seq<T>, key: T -> Rank): (r: seq<T>)
    ensures |r| == |s| + 1
    ensures multiset(r) == multiset(s) + multiset{x}
  {
    if s == [] || RankLe(key(x), key(s[0])) then [x] + s
    else
      assert s == [s[0]] + s[1..];
      [s[0]] + InsertBy(x, s[1..], key)
  }

  /** Stable sort of `s` by `key` (List.sort / Stream.sorted with a comparator). */
  function SortBy<T>(s: seq<T>, key: T -> Rank): (r: seq<T>)
    ensures |r| == |s|
    ensures multiset(r) == multiset(s)
  {
    if s == [] then []
    else
      assert s == [s[0]] + s[1..];
      InsertBy(s[0], SortBy(s[1..], key), key)
  }

  lemma {:induction false} InsertBySorted<T>(x: T, s: seq<T>, key: T -> Rank)
    requires SortedBy(s, key)
    ensures SortedBy(InsertBy(x, s, key), key)
    decreases |s|
  {
    if s == [] || RankLe(key(x), key(s[0])) {
      var r := [x] + s;
      forall i, j | 0 <= i < j < |r|
        ensures RankLe(key(r[i]), key(r[j]))
      {
        if i == 0 && j > 1 {
          assert RankLe(key(s[0]), key(s[j - 1]));
        }
      }
    } else {
      InsertBySorted(x, s[1..], key);
      var t := InsertBy(x, s[1..], key);
      var r := [s[0]] + t;
      forall k | 0 <= k < |t|
        ensures RankLe(key(s[0]), key(t[k]))
      {
        assert t[k] in multiset(t);
        assert t[k] in multiset(s[1..]) || t[k] == x;
        if t[k] != x {
          var m :| 0 <= m < |s[1..]| && s[1..][m] == t[k];
          assert s[m + 1] == t[k];
        }
      }
      forall i, j | 0 <= i < j < |r|
        ensures RankLe(key(r[i]), key(r[j]))
      {
        if i == 0 {
          assert r[j] == t[j - 1];
        } else {
          assert r[i] == t[i - 1] && r[j] == t[j - 1];
        }
      }
    }
  }

  /** SortBy orders its result by the key. */
  lemma {:induction false} SortBySorted<T>(s: seq<T>, key: T -> Rank)
    ensures SortedBy(SortBy(s, key), key)
    decreases |s|
  {
    if s != [] {
      SortBySorted(s[1..], key);
      InsertBySorted(s[0], SortBy(s[1..], key), key);
    }
  }

  /** The elements of `s` whose key is exactly `k`, in order. */
  function WithKey<T>(s: seq<T>, key: T -> Rank, k: Rank): seq<T>
  {
    Filter(s, x => key(x) == k)
  }

  lemma {:induction false} InsertByStable<T>(x: T, s: seq<T>, key: T -> Rank, k: Rank)
    requires SortedBy(s, key)
    ensures WithKey(InsertBy(x, s, key), key, k)
         == if key(x) == k then [x] + WithKey(s, key, k) else WithKey(s, key, k)
    decreases |s|
  {
    if s == [] || RankLe(key(x), key(s[0])) {
      assert ([x] + s)[1..] == s;
    } else {
      InsertByStable(x, s[1..], key, k);
      assert ([s[0]] + InsertBy(x, s[1..], key))[1..] == InsertBy(x, s[1..], key);
      if key(x) == k {
        // every element before x's position has a smaller key than x, so none has key k
        assert key(s[0]) != k;
      }
    }
  }

  /** The elements with key k of a prefix are a prefix of those of the whole. */
  lemma {:induction false} WithKeyOfPrefix<T>(a: seq<T>, b: seq<T>, key: T -> Rank, k: Rank)
    requires a <= b
    ensures WithKey(a, key, k) <= WithKey(b, key, k)
    decreases |a|
  {
    if a != [] {
      WithKeyOfPrefix(a[1..], b[1..], key, k);
      assert a == [a[0]] + a[1..] && b == [b[0]] + b[1..];
    }
  }

  /**
   * SortBy is stable: the elements sharing any one key keep their
   * relative order.
   */
  lemma {:induction false} SortByStable<T>(s: seq<T>, key: T -> Rank, k: Rank)
    ensures WithKey(SortBy(s, key), key, k) == WithKey(s, key, k)
    decreases |s|
  {
    if s != [] {
      SortByStable(s[1..], key, k);
      SortBySorted(s[1..], key);
      InsertByStable(s[0], SortBy(s[1..], key), key, k);
      assert s == [s[0]] + s[1..];
      FilterAppend([s[0]], s[1..], x => key(x) == k);
    }
  }

  /**
   * The rows of `s` satisfying `p`, ordered by `key`: a repository query
   * WHERE p ORDER BY key.
   */
  function Query<T>(s: seq<T>, p: T -> bool, key: T -> Rank): (r: seq<T>)
    ensures forall i | 0 <= i < |r| :: p(r[i]) && r[i] in s
    ensures forall i | 0 <= i < |s| :: p(s[i]) ==> s[i] in r
    ensures SortedBy(r, key)
    ensures multiset(r) == multiset(Filter(s, p))
  {
    var f := Filter(s, p);
    SortBySorted(f, key);
    var r := SortBy(f, key);
    forall i | 0 <= i < |r|
      ensures p(r[i]) && r[i] in s
    {
      assert r[i] in multiset(r);
      var j :| 0 <= j < |f| && f[j] == r[i];
      assert f[j] in multiset(s);
    }
    assert forall i | 0 <= i < |s| && p(s[i]) :: s[i] in r by {
      forall i | 0 <= i < |s| && p(s[i]) ensures s[i] in r {
        assert s[i] in multiset(f);
      }
    }
    r
  }

  /** `s` is in non-increasing order of the column `at`. */
  ghost predicate NonIncreasing<T>(s: seq<T>, at: T -> int)
  {
    forall i, j | 0 <= i < j < |s| :: at(s[i]) >= at(s[j])
  }

  /** A repository query WHERE p ORDER BY at DESC. */
  function QueryDesc<T>(s: seq<T>, p: T -> bool, at: T -> int): (r: seq<T>)
    ensures forall i | 0 <= i < |r| :: p(r[i]) && r[i] in s
    ensures forall i | 0 <= i < |s| :: p(s[i]) ==> s[i] in r
    ensures NonIncreasing(r, at)
    ensures multiset(r) == multiset(Filter(s, p))
  {
    var key := (x: T) => Desc(at(x));
    var r := Query(s, p, key);
    forall i, j | 0 <= i < j < |r|
      ensures at(r[i]) >= at(r[j])
    {
      assert RankLe(key(r[i]), key(r[j]));
    }
    r
  }

  /** Descending order on one integer column. */
  function Desc(v: int): Rank
  {
    Rank(-v, 0)
  }

  /** Ascending order on one integer column. */
  function Asc(v: int): Rank
  {
    Rank(v, 0)
  }
}
