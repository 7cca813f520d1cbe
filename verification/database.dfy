/**
 * The cost ledger: an append-only table of usage records, the windowed
 * report over it (totals plus a per-day, per-tool breakdown, newest day
 * first) and the spend-limit check built on that report.
 *
 * The SQLite table is the sequence `CostDatabase.records`; the row id is
 * the store's autoincrement counter. Timestamps are whole seconds on one
 * clock, and a record's calendar day is its timestamp divided by 86400.
 */
module Database {
  import opened Common

  const SecondsPerDay: int := 86400

  /** The report periods, in the order the error message lists them. */
  const ValidPeriods: seq<string> := ["today", "week", "month", "all"]

  datatype Period = Today | Week | Month | All

  function PeriodName(p: Period): string
  {
    match p
    case Today => "today"
    case Week => "week"
    case Month => "month"
    case All => "all"
  }

  /** The message of the ValueError for a period outside the four. */
  function InvalidPeriodMessage(period: string): string
  {
    "Invalid period '" + period + "'. Must be one of: " + Join(ValidPeriods, ", ")
  }

  /** Period validation, done before any query is run. */
  function ParsePeriod(period: string): (r: Result<Period, Exc>)
    ensures r.Success? <==> period in ValidPeriods
    ensures r.Success? ==> PeriodName(r.value) == period
    ensures r.Failure? ==> r.error == ValueError(InvalidPeriodMessage(period))
  {
    if period == "today" then Success(Today)
    else if period == "week" then Success(Week)
    else if period == "month" then Success(Month)
    else if period == "all" then Success(All)
    else Failure(ValueError(InvalidPeriodMessage(period)))
  }

  /**
   * The first instant a period covers, `now` in seconds since the epoch:
   * today's midnight, seven or thirty days back, or the epoch itself.
   */
  function WindowStart(p: Period, now: int): (start: int)
    ensures p.Today? ==> start % SecondsPerDay == 0 && start <= now < start + SecondsPerDay
    ensures p.Week? ==> now - start == 7 * SecondsPerDay
    ensures p.Month? ==> now - start == 30 * SecondsPerDay
    ensures p.All? ==> start == 0
  {
    match p
    case Today => now - now % SecondsPerDay
    case Week => now - 7 * SecondsPerDay
    case Month => now - 30 * SecondsPerDay
    case All => 0
  }

  /** Once thirty days have passed since the epoch, the windows nest: today within week within month within all. */
  lemma WindowsNest(now: int)
    requires now >= 30 * SecondsPerDay
    ensures WindowStart(All, now) <= WindowStart(Month, now) <= WindowStart(Week, now)
    ensures WindowStart(Week, now) <= WindowStart(Today, now) <= now
  {
  }

  // ---------------------------------------------------------------------
  // the ledger

  datatype Record = Record(
    id: nat,
    timestamp: int,
    toolName: string,
    costUsd: real,
    inputTokens: nat,
    outputTokens: nat,
    filePath: Option<string>)

  /** Row ids grow strictly in insertion order. */
  predicate IdsIncreasing(rs: seq<Record>)
  {
    forall i, j :: 0 <= i < j < |rs| ==> rs[i].id < rs[j].id
  }

  /** The id the store assigns to the next row: one past the largest id in the table. */
  function NextId(rs: seq<Record>): (id: nat)
    ensures id > 0
    ensures forall i :: 0 <= i < |rs| ==> rs[i].id < id
    ensures IdsIncreasing(rs) && rs != [] ==> id == rs[|rs| - 1].id + 1
  {
    if rs == [] then 1
    else
      var prior := NextId(rs[..|rs| - 1]);
      if prior > rs[|rs| - 1].id + 1 then prior else rs[|rs| - 1].id + 1
  }

  function Day(timestamp: int): int
  {
    timestamp / SecondsPerDay
  }

  class CostDatabase {
    /** The rows of the `requests` table, oldest first. */
    var records: seq<Record>

    ghost predicate Valid()
      reads this
    {
      IdsIncreasing(records)
    }

    /** Open the store; the table keeps whatever rows it already holds. */
    constructor(existing: seq<Record>)
      requires IdsIncreasing(existing)
      ensures Valid() && records == existing
    {
      records := existing;
    }

    /**
     * `log_request`: insert one row stamped with the current time; missing
     * token counts are stored as 0. When the store cannot be written the
     * insert fails and the table is unchanged.
     */
    method LogRequest(toolName: string, costUsd: real, tokens: map<string, nat>, filePath: Option<string>,
                      now: int, writable: bool)
      returns (ok: bool)
      requires Valid()
      modifies this
      ensures Valid()
      ensures ok == writable
      ensures ok ==> records == old(records) + [Record(NextId(old(records)), now, toolName, costUsd,
                                                      Get(tokens, "input", 0), Get(tokens, "output", 0), filePath)]
      ensures !ok ==> records == old(records)
    {
      if !writable {
        return false;
      }
      var row := Record(NextId(records), now, toolName, costUsd, Get(tokens, "input", 0), Get(tokens, "output", 0), filePath);
      records := records + [row];
      ok := true;
    }
  }

  // ---------------------------------------------------------------------
  // selection: WHERE timestamp >= start [AND tool_name = filter]

  /** A tool filter applies only when it is a non-empty string. */
  predicate FilterActive(filter: Option<string>)
  {
    filter.Some? && filter.value != ""
  }

  predicate Matches(r: Record, start: int, filter: Option<string>)
  {
    r.timestamp >= start && (!FilterActive(filter) || r.toolName == filter.value)
  }

  /** The rows the report's query reads, in table order. */
  function Select(rs: seq<Record>, start: int, filter: Option<string>): (sel: seq<Record>)
    ensures |sel| <= |rs|
    ensures forall i :: 0 <= i < |sel| ==> Matches(sel[i], start, filter)
  {
    if rs == [] then []
    else Select(rs[..|rs| - 1], start, filter) + (if Matches(rs[|rs| - 1], start, filter) then [rs[|rs| - 1]] else [])
  }

  /**
   * The selection is exactly the matching records, each kept as often as
   * the table holds it and in table order: a sub-multiset of the table.
   */
  lemma {:induction false} SelectKeepsMatching(rs: seq<Record>, start: int, filter: Option<string>)
    ensures forall r :: r in Select(rs, start, filter) <==> r in rs && Matches(r, start, filter)
    ensures multiset(Select(rs, start, filter)) <= multiset(rs)
    decreases |rs|
  {
    if rs != [] {
      var init, last := rs[..|rs| - 1], rs[|rs| - 1];
      SelectKeepsMatching(init, start, filter);
      assert rs == init + [last];
    }
  }

  function SumCost(rs: seq<Record>): real
  {
    if rs == [] then 0.0 else SumCost(rs[..|rs| - 1]) + rs[|rs| - 1].costUsd
  }

  /** How many rows fall on day `d` for tool `t`. */
  function KeyCount(rs: seq<Record>, d: int, t: string): nat
  {
    if rs == [] then 0
    else KeyCount(rs[..|rs| - 1], d, t) + (if Day(rs[|rs| - 1].timestamp) == d && rs[|rs| - 1].toolName == t then 1 else 0)
  }

  /** What the rows of day `d` for tool `t` cost together. */
  function KeyCost(rs: seq<Record>, d: int, t: string): real
  {
    if rs == [] then 0.0
    else KeyCost(rs[..|rs| - 1], d, t) + (if Day(rs[|rs| - 1].timestamp) == d && rs[|rs| - 1].toolName == t then rs[|rs| - 1].costUsd else 0.0)
  }

  predicate NonNegativeCosts(rs: seq<Record>)
  {
    forall i :: 0 <= i < |rs| ==> rs[i].costUsd >= 0.0
  }

  // ---------------------------------------------------------------------
  // GROUP BY date(timestamp), tool_name ORDER BY date DESC

  /** One result row of the grouped query: a day, a tool, its count and summed cost. */
  datatype Row = Row(day: int, tool: string, requests: nat, cost: real)

  predicate SortedByDayDesc(rows: seq<Row>)
  {
    forall i, j :: 0 <= i < j < |rows| ==> rows[i].day >= rows[j].day
  }

  predicate DistinctKeys(rows: seq<Row>)
  {
    forall i, j :: 0 <= i < j < |rows| ==> rows[i].day != rows[j].day || rows[i].tool != rows[j].tool
  }

  predicate AllPositive(rows: seq<Row>)
  {
    forall i :: 0 <= i < |rows| ==> rows[i].requests > 0
  }

  function RequestsOf(rows: seq<Row>): nat
  {
    if rows == [] then 0 else rows[0].requests + RequestsOf(rows[1..])
  }

  function CostOfRows(rows: seq<Row>): real
  {
    if rows == [] then 0.0 else rows[0].cost + CostOfRows(rows[1..])
  }

  /** The count the rows hold for the key (d, t). */
  function RowsKeyCount(rows: seq<Row>, d: int, t: string): nat
  {
    if rows == [] then 0
    else (if rows[0].day == d && rows[0].tool == t then rows[0].requests else 0) + RowsKeyCount(rows[1..], d, t)
  }

  /** The cost the rows hold for the key (d, t). */
  function RowsKeyCost(rows: seq<Row>, d: int, t: string): real
  {
    if rows == [] then 0.0
    else (if rows[0].day == d && rows[0].tool == t then rows[0].cost else 0.0) + RowsKeyCost(rows[1..], d, t)
  }

  /**
   * Account one record of day `d`, tool `t` and cost `c` in the grouped
   * rows: bump its group, or open a new group in front of the first older
   * day (rows of one day keep the order in which their groups appeared).
   */
  function AddRow(rows: seq<Row>, d: int, t: string, c: real): (res: seq<Row>)
    requires SortedByDayDesc(rows)
    ensures SortedByDayDesc(res)
    ensures |res| > 0 && res[0].day == (if rows != [] && rows[0].day >= d then rows[0].day else d)
    decreases |rows|
  {
    if rows == [] then [Row(d, t, 1, c)]
    else if rows[0].day == d && rows[0].tool == t then [rows[0].(requests := rows[0].requests + 1, cost := rows[0].cost + c)] + rows[1..]
    else if rows[0].day < d then [Row(d, t, 1, c)] + rows
    else [rows[0]] + AddRow(rows[1..], d, t, c)
  }

  /** The grouped rows of a selection, folded in table order. */
  function Group(rs: seq<Record>): (rows: seq<Row>)
    ensures SortedByDayDesc(rows)
  {
    if rs == [] then []
    else
      var last := rs[|rs| - 1];
      AddRow(Group(rs[..|rs| - 1]), Day(last.timestamp), last.toolName, last.costUsd)
  }

  /** Adding a record raises the total count by one and the total cost by its cost. */
  lemma {:induction false} AddRowTotals(rows: seq<Row>, d: int, t: string, c: real)
    requires SortedByDayDesc(rows)
    ensures RequestsOf(AddRow(rows, d, t, c)) == RequestsOf(rows) + 1
    ensures CostOfRows(AddRow(rows, d, t, c)) == CostOfRows(rows) + c
    decreases |rows|
  {
    if rows != [] && !(rows[0].day == d && rows[0].tool == t) && rows[0].day >= d {
      AddRowTotals(rows[1..], d, t, c);
      assert AddRow(rows, d, t, c)[1..] == AddRow(rows[1..], d, t, c);
    } else if rows != [] && rows[0].day == d && rows[0].tool == t {
      assert AddRow(rows, d, t, c)[1..] == rows[1..];
    } else if rows != [] {
      assert AddRow(rows, d, t, c)[1..] == rows;
    }
  }

  /** Adding a record changes the count and cost of its own key only. */
  lemma {:induction false} AddRowKeys(rows: seq<Row>, d: int, t: string, c: real, d': int, t': string)
    requires SortedByDayDesc(rows)
    ensures RowsKeyCount(AddRow(rows, d, t, c), d', t') == RowsKeyCount(rows, d', t') + (if d' == d && t' == t then 1 else 0)
    ensures RowsKeyCost(AddRow(rows, d, t, c), d', t') == RowsKeyCost(rows, d', t') + (if d' == d && t' == t then c else 0.0)
    decreases |rows|
  {
    var res := AddRow(rows, d, t, c);
    if rows == [] {
      assert res[1..] == [];
    } else if rows[0].day == d && rows[0].tool == t {
      assert res[1..] == rows[1..];
    } else if rows[0].day < d {
      assert res[1..] == rows;
    } else {
      AddRowKeys(rows[1..], d, t, c, d', t');
      assert res[1..] == AddRow(rows[1..], d, t, c);
    }
  }

  /** A key that none of the rows hold has count 0. */
  lemma {:induction false} AbsentKeyCount(rows: seq<Row>, d: int, t: string)
    requires forall i :: 0 <= i < |rows| ==> rows[i].day != d || rows[i].tool != t
    ensures RowsKeyCount(rows, d, t) == 0
    decreases |rows|
  {
    if rows != [] {
      AbsentKeyCount(rows[1..], d, t);
    }
  }

  /** Some row holds the key (d, t). */
  predicate HasKey(rows: seq<Row>, d: int, t: string)
  {
    exists j :: 0 <= j < |rows| && rows[j].day == d && rows[j].tool == t
  }

  /** Every key of the rows after adding a record is its key or one held before. */
  lemma {:induction false} AddRowOrigin(rows: seq<Row>, d: int, t: string, c: real)
    requires SortedByDayDesc(rows)
    ensures forall i :: 0 <= i < |AddRow(rows, d, t, c)| ==>
              (AddRow(rows, d, t, c)[i].day == d && AddRow(rows, d, t, c)[i].tool == t) ||
              HasKey(rows, AddRow(rows, d, t, c)[i].day, AddRow(rows, d, t, c)[i].tool)
    decreases |rows|
  {
    var res := AddRow(rows, d, t, c);
    if rows == [] {
    } else if rows[0].day == d && rows[0].tool == t {
      assert res[1..] == rows[1..];
      forall i | 0 <= i < |res|
        ensures (res[i].day == d && res[i].tool == t) || HasKey(rows, res[i].day, res[i].tool)
      {
        assert rows[i].day == res[i].day && rows[i].tool == res[i].tool;
      }
    } else if rows[0].day < d {
      assert res[1..] == rows;
      forall i | 0 <= i < |res|
        ensures (res[i].day == d && res[i].tool == t) || HasKey(rows, res[i].day, res[i].tool)
      {
        if i > 0 {
          assert rows[i - 1] == res[i];
        }
      }
    } else {
      var tail := AddRow(rows[1..], d, t, c);
      AddRowOrigin(rows[1..], d, t, c);
      assert res == [rows[0]] + tail;
      forall i | 0 <= i < |res|
        ensures (res[i].day == d && res[i].tool == t) || HasKey(rows, res[i].day, res[i].tool)
      {
        if i == 0 {
          assert rows[0] == res[0];
        } else {
          assert res[i] == tail[i - 1];
          if !(res[i].day == d && res[i].tool == t) {
            var j :| 0 <= j < |rows[1..]| && rows[1..][j].day == tail[i - 1].day && rows[1..][j].tool == tail[i - 1].tool;
            assert rows[j + 1].day == res[i].day && rows[j + 1].tool == res[i].tool;
          }
        }
      }
    }
  }

  /** A row in front of others keeps the keys distinct exactly when its key is new. */
  lemma DistinctCons(x: Row, rest: seq<Row>)
    ensures DistinctKeys([x] + rest) <==> DistinctKeys(rest) && !HasKey(rest, x.day, x.tool)
  {
    var rows := [x] + rest;
    if DistinctKeys(rows) {
      forall i, j | 0 <= i < j < |rest|
        ensures rest[i].day != rest[j].day || rest[i].tool != rest[j].tool
      {
        assert rest[i] == rows[i + 1] && rest[j] == rows[j + 1];
      }
      forall j | 0 <= j < |rest|
        ensures rest[j].day != x.day || rest[j].tool != x.tool
      {
        assert rows[0] == x && rows[j + 1] == rest[j];
      }
    }
    if DistinctKeys(rest) && !HasKey(rest, x.day, x.tool) {
      forall i, j | 0 <= i < j < |rows|
        ensures rows[i].day != rows[j].day || rows[i].tool != rows[j].tool
      {
        assert rows[j] == rest[j - 1];
        if i > 0 {
          assert rows[i] == rest[i - 1];
        }
      }
    }
  }

  /** Adding a record keeps the keys distinct and every count positive. */
  lemma {:induction false} AddRowShape(rows: seq<Row>, d: int, t: string, c: real)
    requires SortedByDayDesc(rows) && DistinctKeys(rows) && AllPositive(rows)
    ensures DistinctKeys(AddRow(rows, d, t, c)) && AllPositive(AddRow(rows, d, t, c))
    decreases |rows|
  {
    var res := AddRow(rows, d, t, c);
    if rows == [] {
    } else if rows[0].day == d && rows[0].tool == t {
      // the first row's count goes up; the keys are the ones there were
      DistinctCons(rows[0], rows[1..]);
      assert rows == [rows[0]] + rows[1..];
      assert res == [res[0]] + rows[1..];
      DistinctCons(res[0], rows[1..]);
    } else if rows[0].day < d {
      // a new first row, on a day later than every other
      forall j | 0 <= j < |rows|
        ensures rows[j].day < d
      {
      }
      DistinctCons(res[0], rows);
    } else {
      var tail := AddRow(rows[1..], d, t, c);
      AddRowShape(rows[1..], d, t, c);
      AddRowOrigin(rows[1..], d, t, c);
      assert rows == [rows[0]] + rows[1..];
      DistinctCons(rows[0], rows[1..]);
      assert res == [rows[0]] + tail;
      forall j | 0 <= j < |tail|
        ensures tail[j].day != rows[0].day || tail[j].tool != rows[0].tool
      {
        assert (tail[j].day == d && tail[j].tool == t) || HasKey(rows[1..], tail[j].day, tail[j].tool);
      }
      DistinctCons(rows[0], tail);
    }
  }

  /**
   * The grouped rows of a selection: one row per distinct (day, tool),
   * each holding the number and summed cost of the records with that key,
   * with counts adding up to the number of records and costs to their total.
   */
  lemma {:induction false} GroupFacts(rs: seq<Record>)
    ensures DistinctKeys(Group(rs)) && AllPositive(Group(rs))
    ensures RequestsOf(Group(rs)) == |rs|
    ensures CostOfRows(Group(rs)) == SumCost(rs)
    ensures forall d, t :: RowsKeyCount(Group(rs), d, t) == KeyCount(rs, d, t)
    ensures forall d, t :: RowsKeyCost(Group(rs), d, t) == KeyCost(rs, d, t)
    decreases |rs|
  {
    if rs != [] {
      var init, last := rs[..|rs| - 1], rs[|rs| - 1];
      GroupFacts(init);
      AddRowTotals(Group(init), Day(last.timestamp), last.toolName, last.costUsd);
      AddRowShape(Group(init), Day(last.timestamp), last.toolName, last.costUsd);
      forall d, t
        ensures RowsKeyCount(Group(rs), d, t) == KeyCount(rs, d, t)
        ensures RowsKeyCost(Group(rs), d, t) == KeyCost(rs, d, t)
      {
        AddRowKeys(Group(init), Day(last.timestamp), last.toolName, last.costUsd, d, t);
      }
    }
  }

  /** With distinct keys, a row's count and cost are all its key has. */
  lemma {:induction false} RowIsWholeKey(rows: seq<Row>, i: nat)
    requires DistinctKeys(rows) && i < |rows|
    ensures RowsKeyCount(rows, rows[i].day, rows[i].tool) == rows[i].requests
    ensures RowsKeyCost(rows, rows[i].day, rows[i].tool) == rows[i].cost
    decreases |rows|
  {
    if i == 0 {
      forall j | 0 <= j < |rows[1..]|
        ensures rows[1..][j].day != rows[0].day || rows[1..][j].tool != rows[0].tool
      {
        assert rows[1..][j] == rows[j + 1];
      }
      AbsentKeyCount(rows[1..], rows[0].day, rows[0].tool);
      AbsentKeyCost(rows[1..], rows[0].day, rows[0].tool);
    } else {
      RowIsWholeKey(rows[1..], i - 1);
      assert rows[1..][i - 1] == rows[i];
      assert rows[0].day != rows[i].day || rows[0].tool != rows[i].tool;
    }
  }

  lemma {:induction false} AbsentKeyCost(rows: seq<Row>, d: int, t: string)
    requires forall i :: 0 <= i < |rows| ==> rows[i].day != d || rows[i].tool != t
    ensures RowsKeyCost(rows, d, t) == 0.0
    decreases |rows|
  {
    if rows != [] {
      AbsentKeyCost(rows[1..], d, t);
    }
  }

  // ---------------------------------------------------------------------
  // the report

  datatype Entry = Entry(date: int, tool: string, requests: nat, costUsd: real)

  datatype Report = Report(totalRequests: nat, totalCostUsd: real, breakdown: seq<Entry>)

  /** The request counts of the breakdown entries, summed. */
  function EntryRequests(es: seq<Entry>): nat
  {
    if es == [] then 0 else es[0].requests + EntryRequests(es[1..])
  }

  function Entries(rows: seq<Row>): (es: seq<Entry>)
    ensures |es| == |rows|
    ensures forall i :: 0 <= i < |rows| ==>
              es[i] == Entry(rows[i].day, rows[i].tool, rows[i].requests, Round6(rows[i].cost))
    ensures EntryRequests(es) == RequestsOf(rows)
  {
    if rows == [] then []
    else [Entry(rows[0].day, rows[0].tool, rows[0].requests, Round6(rows[0].cost))] + Entries(rows[1..])
  }

  /**
   * The report over the records a window and filter select: the totals
   * summed from the grouped rows (cost rounded once, at the end) and the
   * grouped rows themselves, each cost rounded.
   */
  function Aggregate(records: seq<Record>, start: int, filter: Option<string>): (r: Report)
    ensures r.totalRequests == |Select(records, start, filter)|
    ensures r.totalCostUsd == Round6(SumCost(Select(records, start, filter)))
    ensures EntryRequests(r.breakdown) == r.totalRequests
    ensures forall i, j :: 0 <= i < j < |r.breakdown| ==> r.breakdown[i].date >= r.breakdown[j].date
    ensures forall i, j :: 0 <= i < j < |r.breakdown| ==>
              r.breakdown[i].date != r.breakdown[j].date || r.breakdown[i].tool != r.breakdown[j].tool
    ensures forall i :: 0 <= i < |r.breakdown| ==>
              var e := r.breakdown[i];
              0 < e.requests == KeyCount(Select(records, start, filter), e.date, e.tool) &&
              e.costUsd == Round6(KeyCost(Select(records, start, filter), e.date, e.tool))
  {
    var rows := Group(Select(records, start, filter));
    GroupFacts(Select(records, start, filter));
    forall i | 0 <= i < |rows|
      ensures rows[i].requests == KeyCount(Select(records, start, filter), rows[i].day, rows[i].tool)
      ensures rows[i].cost == KeyCost(Select(records, start, filter), rows[i].day, rows[i].tool)
    {
      RowIsWholeKey(rows, i);
    }
    Report(RequestsOf(rows), Round6(CostOfRows(rows)), Entries(rows))
  }

  /** `get_report`: validate the period, then aggregate over its window. */
  function GetReport(records: seq<Record>, period: string, filter: Option<string>, now: int): (r: Result<Report, Exc>)
    ensures r.Failure? <==> period !in ValidPeriods
    ensures r.Failure? ==> r.error == ValueError(InvalidPeriodMessage(period))
    ensures r.Success? ==> r.value == Aggregate(records, WindowStart(ParsePeriod(period).value, now), filter)
  {
    match ParsePeriod(period)
    case Failure(e) => Failure(e)
    case Success(p) => Success(Aggregate(records, WindowStart(p, now), filter))
  }

  /** What `check_cost_limit` compares: the report's rounded total for the period, over all tools. */
  function Spend(records: seq<Record>, p: Period, now: int): (total: real)
    ensures GetReport(records, PeriodName(p), None, now) == Success(Aggregate(records, WindowStart(p, now), None))
    ensures total == GetReport(records, PeriodName(p), None, now).value.totalCostUsd
  {
    assert ParsePeriod(PeriodName(p)) == Success(p);
    Round6(SumCost(Select(records, WindowStart(p, now), None)))
  }

  /**
   * `check_cost_limit`: true exactly when the rounded spend of the period
   * is strictly below the limit, so spend equal to the limit is refused.
   */
  function CheckCostLimit(records: seq<Record>, period: string, limit: real, now: int): (r: Result<bool, Exc>)
    ensures r.Failure? <==> period !in ValidPeriods
    ensures r.Failure? ==> r.error == ValueError(InvalidPeriodMessage(period))
    ensures r.Success? ==> (r.value <==> Spend(records, ParsePeriod(period).value, now) < limit)
    ensures r.Success? && Spend(records, ParsePeriod(period).value, now) == limit ==> !r.value
  {
    match GetReport(records, period, None, now)
    case Failure(e) => Failure(e)
    case Success(report) => Success(report.totalCostUsd < limit)
  }

  // ---------------------------------------------------------------------
  // properties of the report

  /** An empty ledger reports nothing for every period and filter. */
  lemma EmptyLedgerReport(period: string, filter: Option<string>, now: int)
    requires period in ValidPeriods
    ensures GetReport([], period, filter, now) == Success(Report(0, 0.0, []))
  {
    assert Round6(0.0) == 0.0 by { Round6Exact(0); }
  }

  /** An active filter keeps only the records of that tool; no filter and an empty one select the same. */
  lemma {:induction false} FilterSelects(rs: seq<Record>, start: int, filter: Option<string>)
    ensures FilterActive(filter) ==> forall i :: 0 <= i < |Select(rs, start, filter)| ==> Select(rs, start, filter)[i].toolName == filter.value
    ensures !FilterActive(filter) ==> Select(rs, start, filter) == Select(rs, start, None)
    decreases |rs|
  {
    if rs != [] {
      FilterSelects(rs[..|rs| - 1], start, filter);
    }
  }

  /** A later window start selects no more records and, with non-negative costs, no more spend. */
  lemma {:induction false} LaterStartSelectsLess(rs: seq<Record>, s1: int, s2: int, filter: Option<string>)
    requires s1 <= s2
    ensures |Select(rs, s2, filter)| <= |Select(rs, s1, filter)|
    ensures NonNegativeCosts(rs) ==> SumCost(Select(rs, s2, filter)) <= SumCost(Select(rs, s1, filter))
    decreases |rs|
  {
    if rs != [] {
      var init := rs[..|rs| - 1];
      LaterStartSelectsLess(init, s1, s2, filter);
      if NonNegativeCosts(rs) {
        assert NonNegativeCosts(init) by {
          forall i | 0 <= i < |init| ensures init[i].costUsd >= 0.0 { assert init[i] == rs[i]; }
        }
        SumCostAppend(Select(init, s1, filter), if Matches(rs[|rs| - 1], s1, filter) then [rs[|rs| - 1]] else []);
        SumCostAppend(Select(init, s2, filter), if Matches(rs[|rs| - 1], s2, filter) then [rs[|rs| - 1]] else []);
      }
    }
  }

  lemma {:induction false} SumCostNonNegative(rs: seq<Record>)
    ensures NonNegativeCosts(rs) ==> SumCost(rs) >= 0.0
    decreases |rs|
  {
    if rs != [] {
      SumCostNonNegative(rs[..|rs| - 1]);
    }
  }

  /** No negative cost in the ledger, no negative spend in any period. */
  lemma SpendNonNegative(records: seq<Record>, p: Period, now: int)
    requires NonNegativeCosts(records)
    ensures Spend(records, p, now) >= 0.0
  {
    var sel := Select(records, WindowStart(p, now), None);
    SelectKeepsMatching(records, WindowStart(p, now), None);
    assert NonNegativeCosts(sel) by {
      forall i | 0 <= i < |sel| ensures sel[i].costUsd >= 0.0 {
        assert sel[i] in records;
      }
    }
    SumCostNonNegative(sel);
    Round6Exact(0);
    Round6Monotone(0.0, SumCost(sel));
  }

  lemma SumCostAppend(a: seq<Record>, b: seq<Record>)
    requires |b| <= 1
    ensures SumCost(a + b) == SumCost(a) + SumCost(b)
  {
    if b != [] {
      assert (a + b)[..|a + b| - 1] == a;
    } else {
      assert a + b == a;
    }
  }

  /**
   * The four periods report totals that never shrink from today to week
   * to month to all (once thirty days have passed since the epoch and no
   * cost is negative).
   */
  lemma PeriodTotalsNest(rs: seq<Record>, filter: Option<string>, now: int)
    requires now >= 30 * SecondsPerDay && NonNegativeCosts(rs)
    ensures Aggregate(rs, WindowStart(Today, now), filter).totalRequests <= Aggregate(rs, WindowStart(Week, now), filter).totalRequests
    ensures Aggregate(rs, WindowStart(Week, now), filter).totalRequests <= Aggregate(rs, WindowStart(Month, now), filter).totalRequests
    ensures Aggregate(rs, WindowStart(Month, now), filter).totalRequests <= Aggregate(rs, WindowStart(All, now), filter).totalRequests
    ensures Aggregate(rs, WindowStart(Today, now), filter).totalCostUsd <= Aggregate(rs, WindowStart(Week, now), filter).totalCostUsd
    ensures Aggregate(rs, WindowStart(Week, now), filter).totalCostUsd <= Aggregate(rs, WindowStart(Month, now), filter).totalCostUsd
    ensures Aggregate(rs, WindowStart(Month, now), filter).totalCostUsd <= Aggregate(rs, WindowStart(All, now), filter).totalCostUsd
  {
    var all, month, week, today := WindowStart(All, now), WindowStart(Month, now), WindowStart(Week, now), WindowStart(Today, now);
    WindowsNest(now);
    LaterStartSelectsLess(rs, week, today, filter);
    LaterStartSelectsLess(rs, month, week, filter);
    LaterStartSelectsLess(rs, all, month, filter);
    Round6Monotone(SumCost(Select(rs, today, filter)), SumCost(Select(rs, week, filter)));
    Round6Monotone(SumCost(Select(rs, week, filter)), SumCost(Select(rs, month, filter)));
    Round6Monotone(SumCost(Select(rs, month, filter)), SumCost(Select(rs, all, filter)));
  }

  /** A window that every record falls in selects the whole table. */
  lemma {:induction false} WholeTableSelected(rs: seq<Record>, start: int)
    requires forall i :: 0 <= i < |rs| ==> rs[i].timestamp >= start
    ensures Select(rs, start, None) == rs
    decreases |rs|
  {
    if rs != [] {
      WholeTableSelected(rs[..|rs| - 1], start);
      assert rs[..|rs| - 1] + [rs[|rs| - 1]] == rs;
    }
  }

  /**
   * After N logged calls stamped after the epoch, the "all" report counts
   * N requests and the rounded sum of their costs.
   */
  lemma AllReportCountsEveryCall(rs: seq<Record>, now: int)
    requires forall i :: 0 <= i < |rs| ==> rs[i].timestamp >= 0
    ensures GetReport(rs, "all", None, now) == Success(Aggregate(rs, 0, None))
    ensures Aggregate(rs, 0, None).totalRequests == |rs|
    ensures Aggregate(rs, 0, None).totalCostUsd == Round6(SumCost(rs))
  {
    assert ParsePeriod("all") == Success(All);
    assert WindowStart(All, now) == 0;
    WholeTableSelected(rs, 0);
  }

  /** Appending a record adds its cost to the unrounded spend of every window it falls in. */
  lemma AppendAddsSpend(rs: seq<Record>, r: Record, start: int, filter: Option<string>)
    ensures SumCost(Select(rs + [r], start, filter)) ==
            SumCost(Select(rs, start, filter)) + (if Matches(r, start, filter) then r.costUsd else 0.0)
  {
    assert (rs + [r])[..|rs + [r]| - 1] == rs;
    SumCostAppend(Select(rs, start, filter), if Matches(r, start, filter) then [r] else []);
  }
}
