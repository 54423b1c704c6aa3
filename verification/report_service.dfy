/** The statistics reports: for an inclusive range of days, one aggregate
    query per day over that day's window, collected into series parallel
    to the list of days. Days are epoch-day numbers and instants are
    nanoseconds since the epoch; the order and user mappers are function
    parameters. The comma-joined strings of the report objects are
    represented by the lists they join. */
module ReportService {
  import opened Wrappers

  const NanosPerDay: int := 86_400_000_000_000

  /** `LocalDateTime.of(day, LocalTime.MIN)`. */
  function StartOfDay(day: int): int {
    day * NanosPerDay
  }

  /** `LocalDateTime.of(day, LocalTime.MAX)`: the last nanosecond of the day. */
  function EndOfDay(day: int): int {
    day * NanosPerDay + NanosPerDay - 1
  }

  /** The day an instant falls on (`LocalDateTime.toLocalDate`). */
  function DayOf(t: int): int {
    t / NanosPerDay
  }

  /** The day windows partition time: an instant lies in the window of
      exactly one day, and consecutive windows touch. */
  lemma InWindowIffDayOf(day: int, t: int)
    ensures StartOfDay(day) <= t <= EndOfDay(day) <==> DayOf(t) == day
    ensures EndOfDay(day) + 1 == StartOfDay(day + 1)
  {
    var q, r := t / NanosPerDay, t % NanosPerDay;
    assert t == q * NanosPerDay + r && 0 <= r < NanosPerDay;
    if q < day {
      assert q * NanosPerDay <= day * NanosPerDay - NanosPerDay;
    } else if q > day {
      assert q * NanosPerDay >= day * NanosPerDay + NanosPerDay;
    }
  }

  /** `Orders.COMPLETED`. */
  const COMPLETED: int := 5

  /** The parameter map handed to `orderMapper.sumByMap` and `countByMap`;
      a null entry is `None`. */
  datatype OrderQuery = OrderQuery(status: Option<int>, begin: Option<int>, end: Option<int>)

  /** The parameter map handed to `userMapper.countByMap`. */
  datatype UserQuery = UserQuery(begin: Option<int>, end: Option<int>)

  /** The query for the orders with the given status (any status when
      `None`) placed on `day`: its window holds exactly the instants of that
      day. */
  function OrdersOn(day: int, status: Option<int>): (q: OrderQuery)
    ensures q.status == status && q.begin.Some? && q.end.Some?
    ensures forall t :: q.begin.value <= t <= q.end.value <==> DayOf(t) == day
  {
    AllInWindowIffDayOf(day);
    OrderQuery(status, Some(StartOfDay(day)), Some(EndOfDay(day)))
  }

  lemma AllInWindowIffDayOf(day: int)
    ensures forall t :: StartOfDay(day) <= t <= EndOfDay(day) <==> DayOf(t) == day
  {
    forall t {
      InWindowIffDayOf(day, t);
    }
  }

  /** The date list: `begin`, `begin + 1`, ..., `end`. The loop runs until
      the running day equals `end`, so `end` must not precede `begin`. */
  method DateList(begin: int, end: int) returns (dates: seq<int>)
    requires begin <= end
    ensures |dates| == end - begin + 1
    ensures dates[0] == begin && dates[|dates| - 1] == end
    ensures forall i :: 0 <= i < |dates| ==> dates[i] == begin + i
  {
    dates := [begin];
    var day := begin;
    while day != end
      invariant begin <= day <= end
      invariant |dates| == day - begin + 1
      invariant forall i :: 0 <= i < |dates| ==> dates[i] == begin + i
      decreases end - day
    {
      day := day + 1;
      dates := dates + [day];
    }
  }

  datatype TurnoverReport = TurnoverReport(dateList: seq<int>, turnoverList: seq<real>)

  /** `getTurnover`: for each day the revenue of the orders completed that
      day, 0 when the sum is null. */
  method GetTurnover(begin: int, end: int, sumByMap: OrderQuery -> Option<real>) returns (report: TurnoverReport)
    requires begin <= end
    ensures |report.dateList| == end - begin + 1
    ensures forall i :: 0 <= i < |report.dateList| ==> report.dateList[i] == begin + i
    ensures |report.turnoverList| == |report.dateList|
    ensures forall i :: 0 <= i < |report.turnoverList| ==>
      report.turnoverList[i] == sumByMap(OrdersOn(begin + i, Some(COMPLETED))).GetOr(0.0)
  {
    var dateList := DateList(begin, end);
    var turnoverList: seq<real> := [];
    for k := 0 to |dateList|
      invariant |turnoverList| == k
      invariant forall i :: 0 <= i < k ==>
        turnoverList[i] == sumByMap(OrdersOn(dateList[i], Some(COMPLETED))).GetOr(0.0)
    {
      var date := dateList[k];
      var query := OrderQuery(Some(COMPLETED), Some(StartOfDay(date)), Some(EndOfDay(date)));
      var turnover := sumByMap(query);
      var value := if turnover.None? then 0.0 else turnover.value;
      turnoverList := turnoverList + [value];
    }
    report := TurnoverReport(dateList, turnoverList);
  }

  /** `getUserCount`: the query for users created after `beginTime` (no
      lower bound when null) and before `endTime`. */
  function UserCountQuery(beginTime: Option<int>, endTime: int): (q: UserQuery)
    ensures forall t :: Counts(q, t) <==> (beginTime.None? || beginTime.value < t) && t < endTime
  {
    UserQuery(beginTime, Some(endTime))
  }

  /** Whether a user created at instant `t` is counted by `q`, as the SQL
      beside the calls reads: strictly after `begin` (when given) and
      strictly before `end` (when given). */
  predicate Counts(q: UserQuery, t: int) {
    (q.begin.None? || q.begin.value < t) && (q.end.None? || t < q.end.value)
  }

  datatype UserReport = UserReport(dateList: seq<int>, newUserList: seq<int>, totalUserList: seq<int>)

  /** `getUserStatistics`: for each day the users created that day, and the
      users created up to the end of that day. */
  method GetUserStatistics(begin: int, end: int, countByMap: UserQuery -> int) returns (report: UserReport)
    requires begin <= end
    ensures |report.dateList| == end - begin + 1
    ensures forall i :: 0 <= i < |report.dateList| ==> report.dateList[i] == begin + i
    ensures |report.newUserList| == |report.dateList| && |report.totalUserList| == |report.dateList|
    ensures forall i :: 0 <= i < |report.dateList| ==>
      && report.newUserList[i] == countByMap(UserQuery(Some(StartOfDay(begin + i)), Some(EndOfDay(begin + i))))
      && report.totalUserList[i] == countByMap(UserQuery(None, Some(EndOfDay(begin + i))))
  {
    var dateList := DateList(begin, end);
    var newUserList: seq<int> := [];
    var totalUserList: seq<int> := [];
    for k := 0 to |dateList|
      invariant |newUserList| == k && |totalUserList| == k
      invariant forall i :: 0 <= i < k ==>
        && newUserList[i] == countByMap(UserQuery(Some(StartOfDay(dateList[i])), Some(EndOfDay(dateList[i]))))
        && totalUserList[i] == countByMap(UserQuery(None, Some(EndOfDay(dateList[i]))))
    {
      var date := dateList[k];
      var newUser := countByMap(UserCountQuery(Some(StartOfDay(date)), EndOfDay(date)));
      var totalUser := countByMap(UserCountQuery(None, EndOfDay(date)));
      newUserList := newUserList + [newUser];
      totalUserList := totalUserList + [totalUser];
    }
    report := UserReport(dateList, newUserList, totalUserList);
  }

  /** The user count the query stands for: how many of the users'
      creation instants it counts. */
  function CountCreated(createTimes: seq<int>, q: UserQuery): (n: nat)
    ensures n <= |createTimes|
  {
    if createTimes == [] then 0
    else
      var t := createTimes[|createTimes| - 1];
      CountCreated(createTimes[..|createTimes| - 1], q) + (if Counts(q, t) then 1 else 0)
  }

  /** Narrowing a user query's window never raises its count. */
  lemma {:induction false} CountCreatedMonotone(createTimes: seq<int>, narrow: UserQuery, wide: UserQuery)
    requires wide.begin.None? || (narrow.begin.Some? && wide.begin.value <= narrow.begin.value)
    requires wide.end.None? || (narrow.end.Some? && narrow.end.value <= wide.end.value)
    ensures CountCreated(createTimes, narrow) <= CountCreated(createTimes, wide)
  {
    if createTimes != [] {
      CountCreatedMonotone(createTimes[..|createTimes| - 1], narrow, wide);
    }
  }

  /** Against a user table, the user report is consistent: a day's new
      users never exceed the total at its end, and the total never falls
      from one day to the next. */
  lemma UserSeriesConsistent(createTimes: seq<int>, report: UserReport, begin: int)
    requires |report.newUserList| == |report.dateList| && |report.totalUserList| == |report.dateList|
    requires forall i :: 0 <= i < |report.dateList| ==>
      && report.newUserList[i] == CountCreated(createTimes, UserQuery(Some(StartOfDay(begin + i)), Some(EndOfDay(begin + i))))
      && report.totalUserList[i] == CountCreated(createTimes, UserQuery(None, Some(EndOfDay(begin + i))))
    ensures forall i :: 0 <= i < |report.dateList| ==> report.newUserList[i] <= report.totalUserList[i]
    ensures forall i, j :: 0 <= i <= j < |report.dateList| ==> report.totalUserList[i] <= report.totalUserList[j]
  {
    forall i | 0 <= i < |report.dateList|
      ensures report.newUserList[i] <= report.totalUserList[i]
    {
      CountCreatedMonotone(createTimes, UserQuery(Some(StartOfDay(begin + i)), Some(EndOfDay(begin + i))),
                           UserQuery(None, Some(EndOfDay(begin + i))));
    }
    forall i, j | 0 <= i <= j < |report.dateList|
      ensures report.totalUserList[i] <= report.totalUserList[j]
    {
      CountCreatedMonotone(createTimes, UserQuery(None, Some(EndOfDay(begin + i))),
                           UserQuery(None, Some(EndOfDay(begin + j))));
    }
  }

  const TwoTo31: int := 0x8000_0000
  const TwoTo32: int := 0x1_0000_0000

  /** A Java `int`: the 32-bit two's-complement value congruent to `x`. */
  function Int32(x: int): (r: int)
    ensures -TwoTo31 <= r < TwoTo31
    ensures -TwoTo31 <= x < TwoTo31 ==> r == x
  {
    (x + TwoTo31) % TwoTo32 - TwoTo31
  }

  /** Wrapping after every addition is the same as wrapping at the end. */
  lemma Int32AddWrapped(a: int, b: int)
    ensures Int32(Int32(a) + b) == Int32(a + b)
  {
    var k := (a + TwoTo31) / TwoTo32;
    assert Int32(a) == a - k * TwoTo32;
    var x := a + b + TwoTo31;
    assert (x - k * TwoTo32) % TwoTo32 == x % TwoTo32 by {
      ModShift(x, k);
    }
  }

  lemma ModShift(x: int, k: int)
    ensures (x - k * TwoTo32) % TwoTo32 == x % TwoTo32
  {
    var q, r := x / TwoTo32, x % TwoTo32;
    assert x - k * TwoTo32 == (q - k) * TwoTo32 + r;
  }

  /** The exact sum of a series. */
  function Sum(s: seq<int>): int {
    if s == [] then 0 else Sum(s[..|s| - 1]) + s[|s| - 1]
  }

  /** `stream().mapToInt(Integer::intValue).sum()`: a left fold in `int`
      arithmetic, wrapping at every step. */
  function IntStreamSum(s: seq<int>): (r: int)
    ensures -TwoTo31 <= r < TwoTo31
  {
    if s == [] then 0 else Int32(IntStreamSum(s[..|s| - 1]) + s[|s| - 1])
  }

  /** The stream sum is the exact sum taken modulo 2^32; when the exact sum
      fits in an `int`, the two agree. */
  lemma {:induction false} IntStreamSumIsWrappedSum(s: seq<int>)
    ensures IntStreamSum(s) == Int32(Sum(s))
    ensures -TwoTo31 <= Sum(s) < TwoTo31 ==> IntStreamSum(s) == Sum(s)
  {
    if s != [] {
      var init := s[..|s| - 1];
      IntStreamSumIsWrappedSum(init);
      Int32AddWrapped(Sum(init), s[|s| - 1]);
    }
  }

  /** The completion rate in percent, 0 when there were no orders. */
  function CompletionRate(valid: int, total: int): (rate: real)
    ensures total == 0 ==> rate == 0.0
    ensures total != 0 ==> rate * (total as real) == (valid as real) * 100.0
  {
    if total != 0 then (valid as real) / (total as real) * 100.0 else 0.0
  }

  /** When no more orders are valid than were placed, the rate is a percentage. */
  lemma CompletionRateIsPercentage(valid: int, total: int)
    requires 0 <= valid <= total
    ensures 0.0 <= CompletionRate(valid, total) <= 100.0
  {
    if total != 0 {
      var v, t := valid as real, total as real;
      assert v / t <= 1.0 by {
        assert v <= t;
      }
    }
  }

  datatype OrderReport = OrderReport(
    dateList: seq<int>,
    orderCountList: seq<int>,
    validOrderCountList: seq<int>,
    totalOrderCount: int,
    validOrderCount: int,
    orderCompletionRate: real)

  /** `getOrderStatistics`: for each day the orders placed and the orders
      completed, their `int` totals, and the completion rate. */
  method GetOrderStatistics(begin: int, end: int, countByMap: OrderQuery -> int) returns (report: OrderReport)
    requires begin <= end
    ensures |report.dateList| == end - begin + 1
    ensures forall i :: 0 <= i < |report.dateList| ==> report.dateList[i] == begin + i
    ensures |report.orderCountList| == |report.dateList| && |report.validOrderCountList| == |report.dateList|
    ensures forall i :: 0 <= i < |report.dateList| ==>
      && report.orderCountList[i] == countByMap(OrdersOn(begin + i, None))
      && report.validOrderCountList[i] == countByMap(OrdersOn(begin + i, Some(COMPLETED)))
    ensures report.totalOrderCount == Int32(Sum(report.orderCountList))
    ensures report.validOrderCount == Int32(Sum(report.validOrderCountList))
    ensures report.orderCompletionRate == CompletionRate(report.validOrderCount, report.totalOrderCount)
  {
    var dateList := DateList(begin, end);
    var orderCountList: seq<int> := [];
    var validOrderCountList: seq<int> := [];
    for k := 0 to |dateList|
      invariant |orderCountList| == k && |validOrderCountList| == k
      invariant forall i :: 0 <= i < k ==>
        && orderCountList[i] == countByMap(OrdersOn(dateList[i], None))
        && validOrderCountList[i] == countByMap(OrdersOn(dateList[i], Some(COMPLETED)))
    {
      var date := dateList[k];
      var orderCount := countByMap(OrderQuery(None, Some(StartOfDay(date)), Some(EndOfDay(date))));
      var validOrderCount := countByMap(OrderQuery(Some(COMPLETED), Some(StartOfDay(date)), Some(EndOfDay(date))));
      orderCountList := orderCountList + [orderCount];
      validOrderCountList := validOrderCountList + [validOrderCount];
    }
    var totalOrderCount := IntStreamSum(orderCountList);
    var validOrderCount := IntStreamSum(validOrderCountList);
    IntStreamSumIsWrappedSum(orderCountList);
    IntStreamSumIsWrappedSum(validOrderCountList);
    var orderCompletionRate := 0.0;
    if totalOrderCount != 0 {
      orderCompletionRate := (validOrderCount as real) / (totalOrderCount as real) * 100.0;
    }
    report := OrderReport(dateList, orderCountList, validOrderCountList,
                          totalOrderCount, validOrderCount, orderCompletionRate);
  }

  /** A series that dominates another, entry by entry, has the larger sum. */
  lemma {:induction false} SumMonotone(small: seq<int>, large: seq<int>)
    requires |small| == |large|
    requires forall i :: 0 <= i < |small| ==> small[i] <= large[i]
    ensures Sum(small) <= Sum(large)
  {
    if small != [] {
      SumMonotone(small[..|small| - 1], large[..|large| - 1]);
    }
  }

  /** If no day has more completed orders than orders, counts are never
      negative and the total fits in an `int`, the report's rate is a
      percentage. */
  lemma OrderRateIsPercentage(report: OrderReport)
    requires |report.validOrderCountList| == |report.orderCountList|
    requires forall i :: 0 <= i < |report.orderCountList| ==>
      0 <= report.validOrderCountList[i] <= report.orderCountList[i]
    requires Sum(report.orderCountList) < TwoTo31
    requires report.totalOrderCount == Int32(Sum(report.orderCountList))
    requires report.validOrderCount == Int32(Sum(report.validOrderCountList))
    requires report.orderCompletionRate == CompletionRate(report.validOrderCount, report.totalOrderCount)
    ensures 0.0 <= report.orderCompletionRate <= 100.0
  {
    var zeros := seq(|report.validOrderCountList|, i => 0);
    SumMonotone(zeros, report.validOrderCountList);
    SumZero(zeros);
    SumMonotone(report.validOrderCountList, report.orderCountList);
    CompletionRateIsPercentage(report.validOrderCount, report.totalOrderCount);
  }

  lemma {:induction false} SumZero(s: seq<int>)
    requires forall i :: 0 <= i < |s| ==> s[i] == 0
    ensures Sum(s) == 0
  {
    if s != [] {
      SumZero(s[..|s| - 1]);
    }
  }

  /** One row of `orderMapper.getSalesTop10`: a dish or set meal and the
      number of copies sold. */
  datatype GoodsSales = GoodsSales(name: string, number: int)

  datatype SalesTop10Report = SalesTop10Report(nameList: seq<string>, numberList: seq<int>)

  /** `map(GoodsSales::getName)`. */
  function Names(rows: seq<GoodsSales>): (names: seq<string>)
    ensures |names| == |rows|
    ensures forall i :: 0 <= i < |rows| ==> names[i] == rows[i].name
  {
    if rows == [] then [] else Names(rows[..|rows| - 1]) + [rows[|rows| - 1].name]
  }

  /** `map(GoodsSales::getNumber)`. */
  function Numbers(rows: seq<GoodsSales>): (numbers: seq<int>)
    ensures |numbers| == |rows|
    ensures forall i :: 0 <= i < |rows| ==> numbers[i] == rows[i].number
  {
    if rows == [] then [] else Numbers(rows[..|rows| - 1]) + [rows[|rows| - 1].number]
  }

  /** `getSalesTop10`: one query over the whole range, from the start of
      `begin` to the end of `end`, split into two lists. */
  function GetSalesTop10(begin: int, end: int, salesTop10: (int, int) -> seq<GoodsSales>): (report: SalesTop10Report)
    ensures |report.nameList| == |report.numberList| == |salesTop10(StartOfDay(begin), EndOfDay(end))|
  {
    var rows := salesTop10(StartOfDay(begin), EndOfDay(end));
    SalesTop10Report(Names(rows), Numbers(rows))
  }

  /** Pairs up two parallel lists, as a chart reads them. */
  function Zip(names: seq<string>, numbers: seq<int>): (rows: seq<GoodsSales>)
    requires |names| == |numbers|
  {
    if names == [] then []
    else Zip(names[..|names| - 1], numbers[..|numbers| - 1]) + [GoodsSales(names[|names| - 1], numbers[|numbers| - 1])]
  }

  /** The two lists are parallel: zipped back together they are exactly the
      query's rows, in the query's order. */
  lemma {:induction false} SalesTop10ListsParallel(begin: int, end: int, salesTop10: (int, int) -> seq<GoodsSales>)
    ensures var report := GetSalesTop10(begin, end, salesTop10);
      Zip(report.nameList, report.numberList) == salesTop10(StartOfDay(begin), EndOfDay(end))
  {
    ZipUnzip(salesTop10(StartOfDay(begin), EndOfDay(end)));
  }

  lemma {:induction false} ZipUnzip(rows: seq<GoodsSales>)
    ensures Zip(Names(rows), Numbers(rows)) == rows
  {
    if rows != [] {
      var init := rows[..|rows| - 1];
      ZipUnzip(init);
      assert Names(rows)[..|rows| - 1] == Names(init);
      assert Numbers(rows)[..|rows| - 1] == Numbers(init);
    }
  }
}
