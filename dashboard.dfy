/**
 * The weekly figures of the dashboard (Dashboard.tsx): the Sunday-to-Saturday
 * window around the selected date, the transactions inside it, the buy,
 * sell and profit totals, the seven-point daily series and the week
 * navigation; and the cleanup of the insight text into list lines.
 *
 * Instants are local-time milliseconds; a calendar day is the ordinal
 * `Day(t)`, day 0 being Thursday 1 January 1970.
 */
module Dashboard {
  import opened Types
  import opened Seqs
  import opened Text

  const MsPerDay: int := 86400000

  /** The calendar day of an instant (division rounds down, also before 1970). */
  function Day(t: int): int {
    t / MsPerDay
  }

  /** 0 for Sunday up to 6 for Saturday, as `Date.getDay`. */
  function DayOfWeek(day: int): (w: int)
    ensures 0 <= w < 7
  {
    (day + 4) % 7
  }

  lemma DayShift(t: int, k: int)
    ensures Day(t + k * MsPerDay) == Day(t) + k
  {
    var q, r := t / MsPerDay, t % MsPerDay;
    assert t == q * MsPerDay + r;
    assert t + k * MsPerDay == (q + k) * MsPerDay + r;
  }

  lemma DayOfMidnight(day: int)
    ensures Day(day * MsPerDay) == day
  {
    DayShift(0, day);
  }

  datatype Week = Week(start: int, end: int)

  /**
   * `weekRange`: from the Sunday at 00:00:00.000 on or before the selected
   * instant to the following Saturday at 23:59:59.999.
   */
  function WeekRange(selected: int): (w: Week)
    ensures w.start % MsPerDay == 0 && DayOfWeek(Day(w.start)) == 0
    ensures w.start <= selected < w.start + 7 * MsPerDay
    ensures w.end == w.start + 6 * MsPerDay + 23 * 3600000 + 59 * 60000 + 59 * 1000 + 999
  {
    var day := Day(selected);
    var startDay := day - DayOfWeek(day);
    DayOfMidnight(startDay);
    Week(startDay * MsPerDay, startDay * MsPerDay + 7 * MsPerDay - 1)
  }

  /** The window is the only Sunday-midnight week holding the selected instant. */
  lemma WeekRangeUnique(selected: int, start: int)
    requires start % MsPerDay == 0 && DayOfWeek(Day(start)) == 0
    requires start <= selected < start + 7 * MsPerDay
    ensures WeekRange(selected).start == start
  {
    var w := WeekRange(selected);
    var d, d' := Day(start), Day(w.start);
    assert start == d * MsPerDay;
    assert w.start == d' * MsPerDay;
    assert -7 < d - d' < 7;
    assert (d - d') % 7 == 0 by {
      assert (d + 4) % 7 == 0 && (d' + 4) % 7 == 0;
    }
  }

  /**
   * The previous-week button: the same time of day on the same weekday,
   * seven calendar days earlier.
   */
  function PreviousWeek(selected: int): (r: int)
    ensures Day(r) == Day(selected) - 7
    ensures DayOfWeek(Day(r)) == DayOfWeek(Day(selected))
    ensures r % MsPerDay == selected % MsPerDay
  {
    DayShift(selected, -7);
    selected - 7 * MsPerDay
  }

  /** The next-week button: the same time of day on the same weekday, seven calendar days later. */
  function NextWeek(selected: int): (r: int)
    ensures Day(r) == Day(selected) + 7
    ensures DayOfWeek(Day(r)) == DayOfWeek(Day(selected))
    ensures r % MsPerDay == selected % MsPerDay
  {
    DayShift(selected, 7);
    selected + 7 * MsPerDay
  }

  lemma NavigationShiftsWeek(selected: int)
    ensures WeekRange(NextWeek(selected)).start == WeekRange(selected).start + 7 * MsPerDay
    ensures WeekRange(PreviousWeek(selected)).start == WeekRange(selected).start - 7 * MsPerDay
    ensures PreviousWeek(NextWeek(selected)) == selected
  {
    var s := WeekRange(selected).start;
    DayShift(s, 7);
    DayShift(s, -7);
    WeekRangeUnique(NextWeek(selected), s + 7 * MsPerDay);
    WeekRangeUnique(PreviousWeek(selected), s - 7 * MsPerDay);
  }

  /** Both bounds are inclusive. */
  predicate InWeek(t: Transaction, w: Week) {
    w.start <= t.data.date <= w.end
  }

  function TransactionsInPeriod(txs: seq<Transaction>, w: Week): (r: seq<Transaction>)
    ensures forall t :: t in r <==> t in txs && InWeek(t, w)
  {
    Filter(txs, t => InWeek(t, w))
  }

  lemma PeriodKeepsOrder(txs: seq<Transaction>, w: Week)
    ensures IsSubsequence(TransactionsInPeriod(txs, w), txs)
  {
    FilterIsSubsequence(txs, t => InWeek(t, w));
  }

  /** The window includes its first and last millisecond and nothing just outside them. */
  lemma WeekBoundaries(selected: int, t: Transaction)
    ensures var w := WeekRange(selected);
      (t.data.date == w.start ==> InWeek(t, w)) &&
      (t.data.date == w.end ==> InWeek(t, w)) &&
      (t.data.date == w.end + 1 ==> !InWeek(t, w)) &&
      (t.data.date == w.start - 1 ==> !InWeek(t, w))
  {
  }

  /** Within a computed window, membership is being one of its seven days. */
  lemma InWeekByDay(t: Transaction, selected: int)
    ensures var w := WeekRange(selected);
      InWeek(t, w) <==> 0 <= Day(t.data.date) - Day(w.start) < 7
  {
    var w := WeekRange(selected);
    var d := Day(w.start);
    assert w.start == d * MsPerDay;
    DayShift(w.start, 7);
    var q := Day(t.data.date);
    assert q * MsPerDay <= t.data.date < q * MsPerDay + MsPerDay;
  }

  /** The sum of the totals, as `reduce((acc, t) => acc + t.total, 0)`. */
  function SumTotals(s: seq<Transaction>): real {
    if s == [] then 0.0 else s[0].data.total + SumTotals(s[1..])
  }

  lemma {:induction false} SumTotalsConcat(a: seq<Transaction>, b: seq<Transaction>)
    ensures SumTotals(a + b) == SumTotals(a) + SumTotals(b)
  {
    if a != [] {
      assert (a + b)[1..] == a[1..] + b;
      SumTotalsConcat(a[1..], b);
    } else {
      assert a + b == b;
    }
  }

  function IsKind(kind: TransactionType): Transaction -> bool {
    (t: Transaction) => t.data.kind == kind
  }

  function OfType(s: seq<Transaction>, kind: TransactionType): (r: seq<Transaction>)
    ensures forall t :: t in r <==> t in s && t.data.kind == kind
  {
    Filter(s, IsKind(kind))
  }

  /** The sum of the totals of the transactions of one type. */
  function TypeTotal(s: seq<Transaction>, kind: TransactionType): real {
    SumTotals(OfType(s, kind))
  }

  lemma TypeTotalConcat(a: seq<Transaction>, b: seq<Transaction>, kind: TransactionType)
    ensures TypeTotal(a + b, kind) == TypeTotal(a, kind) + TypeTotal(b, kind)
  {
    FilterConcat(a, b, IsKind(kind));
    SumTotalsConcat(OfType(a, kind), OfType(b, kind));
  }

  lemma TypeTotalSingle(t: Transaction, kind: TransactionType)
    ensures TypeTotal([t], kind) == if t.data.kind == kind then t.data.total else 0.0
  {
    if t.data.kind == kind {
      assert OfType([t], kind) == [t];
      assert SumTotals([t]) == t.data.total + SumTotals([t][1..]);
      assert [t][1..] == [];
    } else {
      assert OfType([t], kind) == [];
    }
  }

  /** Every transaction is either a purchase or a sale. */
  lemma {:induction false} BuyPlusSell(s: seq<Transaction>)
    ensures TypeTotal(s, Buy) + TypeTotal(s, Sell) == SumTotals(s)
  {
    if s != [] {
      assert s == [s[0]] + s[1..];
      TypeTotalConcat([s[0]], s[1..], Buy);
      TypeTotalConcat([s[0]], s[1..], Sell);
      TypeTotalSingle(s[0], Buy);
      TypeTotalSingle(s[0], Sell);
      BuyPlusSell(s[1..]);
      assert SumTotals(s) == s[0].data.total + SumTotals(s[1..]);
    }
  }

  datatype Stats = Stats(totalBuy: real, totalSell: real, profit: real)

  /** `stats`: the purchase and sale totals and their difference. */
  function StatsOf(inPeriod: seq<Transaction>): (r: Stats)
    ensures r.profit == r.totalSell - r.totalBuy
    ensures r.totalBuy + r.totalSell == SumTotals(inPeriod)
    ensures inPeriod == [] ==> r == Stats(0.0, 0.0, 0.0)
  {
    BuyPlusSell(inPeriod);
    var totalBuy := TypeTotal(inPeriod, Buy);
    var totalSell := TypeTotal(inPeriod, Sell);
    Stats(totalBuy, totalSell, totalSell - totalBuy)
  }

  /** The figures of a week add up over its parts. */
  lemma StatsConcat(a: seq<Transaction>, b: seq<Transaction>)
    ensures StatsOf(a + b).totalBuy == StatsOf(a).totalBuy + StatsOf(b).totalBuy
    ensures StatsOf(a + b).totalSell == StatsOf(a).totalSell + StatsOf(b).totalSell
    ensures StatsOf(a + b).profit == StatsOf(a).profit + StatsOf(b).profit
  {
    TypeTotalConcat(a, b, Buy);
    TypeTotalConcat(a, b, Sell);
  }

  /** One point of the chart: a calendar day and its purchase and sale sums. */
  datatype DayPoint = DayPoint(day: int, buy: real, sell: real)

  function DatedOn(day: int): Transaction -> bool {
    (t: Transaction) => Day(t.data.date) == day
  }

  function DatedWithin(first: int, n: int): Transaction -> bool {
    (t: Transaction) => first <= Day(t.data.date) < first + n
  }

  function OnDay(s: seq<Transaction>, day: int): seq<Transaction> {
    Filter(s, DatedOn(day))
  }

  /** The transactions dated on one of the `n` days from `first` on. */
  function InDays(s: seq<Transaction>, first: int, n: int): seq<Transaction> {
    Filter(s, DatedWithin(first, n))
  }

  function PointFor(s: seq<Transaction>, day: int): DayPoint {
    DayPoint(day, TypeTotal(OnDay(s, day), Buy), TypeTotal(OnDay(s, day), Sell))
  }

  /** The points for the `n` days from `first` on, in day order. */
  function Series(s: seq<Transaction>, first: int, n: nat): (r: seq<DayPoint>)
    ensures |r| == n
    ensures forall i :: 0 <= i < n ==> r[i] == PointFor(s, first + i)
  {
    if n == 0 then [] else Series(s, first, n - 1) + [PointFor(s, first + n - 1)]
  }

  /**
   * `chartData`: one point per day of the week, built day by day.
   */
  method ChartData(inPeriod: seq<Transaction>, w: Week) returns (days: seq<DayPoint>)
    requires w.start % MsPerDay == 0
    ensures days == Series(inPeriod, Day(w.start), 7)
    ensures |days| == 7
    ensures forall i :: 0 <= i < 7 ==> days[i].day == Day(w.start) + i
  {
    days := [];
    for i := 0 to 7
      invariant days == Series(inPeriod, Day(w.start), i)
    {
      var d := w.start + i * MsPerDay;
      DayShift(w.start, i);
      var dayTransactions := Filter(inPeriod, DatedOn(Day(d)));
      var buy := TypeTotal(dayTransactions, Buy);
      var sell := TypeTotal(dayTransactions, Sell);
      days := days + [DayPoint(Day(d), buy, sell)];
    }
  }

  function SeriesBuy(ps: seq<DayPoint>): real {
    if ps == [] then 0.0 else SeriesBuy(ps[..|ps| - 1]) + ps[|ps| - 1].buy
  }

  function SeriesSell(ps: seq<DayPoint>): real {
    if ps == [] then 0.0 else SeriesSell(ps[..|ps| - 1]) + ps[|ps| - 1].sell
  }

  /** A block of days splits into the earlier days and the last one. */
  lemma {:induction false} InDaysSplit(s: seq<Transaction>, first: int, n: int, kind: TransactionType)
    requires n >= 1
    ensures TypeTotal(InDays(s, first, n), kind)
      == TypeTotal(InDays(s, first, n - 1), kind) + TypeTotal(OnDay(s, first + n - 1), kind)
  {
    if s != [] {
      var t := s[0];
      assert s == [t] + s[1..];
      FilterConcat([t], s[1..], DatedWithin(first, n));
      FilterConcat([t], s[1..], DatedWithin(first, n - 1));
      FilterConcat([t], s[1..], DatedOn(first + n - 1));
      TypeTotalConcat(InDays([t], first, n), InDays(s[1..], first, n), kind);
      TypeTotalConcat(InDays([t], first, n - 1), InDays(s[1..], first, n - 1), kind);
      TypeTotalConcat(OnDay([t], first + n - 1), OnDay(s[1..], first + n - 1), kind);
      InDaysSplit(s[1..], first, n, kind);
      var d := Day(t.data.date);
      if first <= d < first + n - 1 {
        assert InDays([t], first, n) == [t] && InDays([t], first, n - 1) == [t];
        assert OnDay([t], first + n - 1) == [];
      } else if d == first + n - 1 {
        assert InDays([t], first, n) == [t] && InDays([t], first, n - 1) == [];
        assert OnDay([t], first + n - 1) == [t];
      } else {
        assert InDays([t], first, n) == [] && InDays([t], first, n - 1) == [];
        assert OnDay([t], first + n - 1) == [];
      }
    }
  }

  /** The daily sums of `n` days add up to the sums over those days' transactions. */
  lemma {:induction false} SeriesTotals(s: seq<Transaction>, first: int, n: nat)
    ensures SeriesBuy(Series(s, first, n)) == TypeTotal(InDays(s, first, n), Buy)
    ensures SeriesSell(Series(s, first, n)) == TypeTotal(InDays(s, first, n), Sell)
  {
    var ps := Series(s, first, n);
    if n == 0 {
      FilterDropsAll(s, DatedWithin(first, n));
    } else {
      SeriesTotals(s, first, n - 1);
      assert ps[..n - 1] == Series(s, first, n - 1);
      InDaysSplit(s, first, n, Buy);
      InDaysSplit(s, first, n, Sell);
    }
  }

  /**
   * Every transaction of the week falls on exactly one of the seven points,
   * so the chart's daily sums add up to the week's totals.
   */
  lemma ChartMatchesStats(txs: seq<Transaction>, selected: int)
    ensures var w := WeekRange(selected);
      var inPeriod := TransactionsInPeriod(txs, w);
      var days := Series(inPeriod, Day(w.start), 7);
      SeriesBuy(days) == StatsOf(inPeriod).totalBuy &&
      SeriesSell(days) == StatsOf(inPeriod).totalSell
  {
    var w := WeekRange(selected);
    var inPeriod := TransactionsInPeriod(txs, w);
    var first := Day(w.start);
    forall t | t in inPeriod ensures first <= Day(t.data.date) < first + 7 {
      InWeekByDay(t, selected);
    }
    FilterKeepsAll(inPeriod, DatedWithin(first, 7));
    SeriesTotals(inPeriod, first, 7);
  }

  // Insight text

  predicate IsDigit(c: char) { '0' <= c <= '9' }

  function Digits(s: string): (n: nat)
    ensures n <= |s|
    ensures forall i :: 0 <= i < n ==> IsDigit(s[i])
    ensures n < |s| ==> !IsDigit(s[n])
  {
    if s != [] && IsDigit(s[0]) then 1 + Digits(s[1..]) else 0
  }

  /** The length of a leading list marker: digits and a dot, `-` or `*`; 0 when there is none. */
  function MarkerLength(s: string): (n: nat)
    ensures n <= |s|
  {
    var d := Digits(s);
    if d > 0 && d < |s| && s[d] == '.' then d + 1
    else if s != [] && (s[0] == '-' || s[0] == '*') then 1
    else 0
  }

  /** A marker the pattern `^(\d+\.|-|\*)` accepts. */
  predicate IsMarker(m: string) {
    m == "-" || m == "*" ||
    (|m| >= 2 && m[|m| - 1] == '.' && forall i :: 0 <= i < |m| - 1 ==> IsDigit(m[i]))
  }

  /**
   * The replacement of `^(\d+\.|-|\*)\s+` by nothing: a leading marker and
   * all the white space after it go, provided at least one space follows.
   */
  function StripMarker(line: string): (r: string)
    ensures |r| <= |line| && r == line[|line| - |r|..]
  {
    var m := MarkerLength(line);
    if m > 0 && m < |line| && IsSpace(line[m]) then line[m + Leading(line[m..])..] else line
  }

  /** A marked line loses exactly its marker and the white space after it. */
  lemma StripMarkerRemovesMarker(m: string, ws: string, rest: string)
    requires IsMarker(m)
    requires ws != [] && forall i :: 0 <= i < |ws| ==> IsSpace(ws[i])
    requires rest == [] || !IsSpace(rest[0])
    ensures StripMarker(m + ws + rest) == rest
  {
    var tail := ws + rest;
    assert m + ws + rest == m + tail;
    var line := m + tail;
    MarkerLengthOf(m, tail);
    assert line[|m|..] == tail;
    assert line[|m|] == ws[0];
    LeadingPrefix(ws, rest);
    assert line[|m| + |ws|..] == rest;
  }

  /** The marker at the head of a line is recognised whatever follows it. */
  lemma MarkerLengthOf(m: string, tail: string)
    requires IsMarker(m)
    ensures MarkerLength(m + tail) == |m|
  {
    var line := m + tail;
    if m == "-" || m == "*" {
      assert !IsDigit(line[0]);
    } else {
      assert forall i :: 0 <= i < |m| - 1 ==> IsDigit(line[i]);
      assert line[|m| - 1] == '.';
      DigitsPrefix(line, |m| - 1);
    }
  }

  lemma {:induction false} DigitsPrefix(s: string, n: nat)
    requires n < |s| && !IsDigit(s[n])
    requires forall i :: 0 <= i < n ==> IsDigit(s[i])
    ensures Digits(s) == n
  {
    if n > 0 {
      DigitsPrefix(s[1..], n - 1);
    }
  }

  lemma {:induction false} LeadingPrefix(ws: string, rest: string)
    requires forall i :: 0 <= i < |ws| ==> IsSpace(ws[i])
    requires rest == [] || !IsSpace(rest[0])
    ensures Leading(ws + rest) == |ws|
  {
    if ws != [] {
      assert (ws + rest)[1..] == ws[1..] + rest;
      LeadingPrefix(ws[1..], rest);
    }
  }

  /** A line with no marker, or a marker not followed by white space, is kept as it is. */
  lemma StripMarkerKeepsUnmarked(line: string)
    requires forall k :: 0 < k < |line| && IsMarker(line[..k]) ==> !IsSpace(line[k])
    ensures StripMarker(line) == line
  {
    var m := MarkerLength(line);
    if m > 0 && m < |line| {
      assert IsMarker(line[..m]);
    }
  }

  predicate IsBlank(line: string) { Trim(line) == [] }

  /** The list the insights panel shows: non-blank lines, markers stripped. */
  function InsightLines(text: string): (r: seq<string>)
    ensures |r| <= |Split(text, '\n')|
  {
    MapSeq(Filter(Split(text, '\n'), l => !IsBlank(l)), StripMarker)
  }

  /** Each shown line comes from a non-blank line of the text, with at most its marker removed. */
  lemma InsightLinesFromText(text: string, i: int)
    requires 0 <= i < |InsightLines(text)|
    ensures exists l :: l in Split(text, '\n') && !IsBlank(l) && InsightLines(text)[i] == StripMarker(l)
  {
    var kept := Filter(Split(text, '\n'), l => !IsBlank(l));
    assert kept[i] in kept;
  }

  /** Every non-blank line of the text is shown. */
  lemma InsightLinesComplete(text: string, l: string)
    requires l in Split(text, '\n') && !IsBlank(l)
    ensures StripMarker(l) in InsightLines(text)
  {
    var kept := Filter(Split(text, '\n'), l => !IsBlank(l));
    assert l in kept;
    var j :| 0 <= j < |kept| && kept[j] == l;
    assert InsightLines(text)[j] == StripMarker(l);
  }
}
