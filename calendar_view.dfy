/** The month calendar of gains (src/components/CalendarView.tsx).

    The source derives the month from the clock (`startOfMonth(today)`,
    `eachDayOfInterval`, `getDay`); here the month is given as the list of
    its day keys and the weekday index of its first day. */
module CalendarView {
  import opened Types
  import opened Utils

  /** `getDay`: 0 is Sunday, 6 is Saturday. */
  type Weekday = d: int | 0 <= d < 7

  /** What a day cell shows under its date: `+points` or `-`. */
  datatype Badge = Gain(points: int) | NoGain

  /** One cell of the grid: a leading blank, or a day of the month. */
  datatype Cell = Blank | DayCell(dateStr: DayKey, badge: Badge)

  /** `dailyGains[dateStr] || 0`: the day's gain, 0 for a day without one. */
  function CellPoints(gains: map<DayKey, int>, dateStr: DayKey): (r: int)
    ensures dateStr in gains ==> r == gains[dateStr]
    ensures dateStr !in gains ==> r == 0
  {
    if dateStr in gains && gains[dateStr] != 0 then gains[dateStr] else 0
  }

  /** The badge is shown exactly for a positive value, and shows that value. */
  function BadgeFor(points: int): (b: Badge)
    ensures b.Gain? <==> points > 0
    ensures b.Gain? ==> b.points == points
  {
    if points > 0 then Gain(points) else NoGain
  }

  /** The grid: one blank per weekday before the month's first day, then one
      cell per day of the month, in order. */
  function Grid(gains: map<DayKey, int>, monthDays: seq<DayKey>, firstWeekday: Weekday): (cells: seq<Cell>)
    ensures |cells| == firstWeekday + |monthDays|
    ensures forall i :: 0 <= i < firstWeekday ==> cells[i] == Blank
    ensures forall j :: 0 <= j < |monthDays| ==>
      cells[firstWeekday + j] == DayCell(monthDays[j], BadgeFor(CellPoints(gains, monthDays[j])))
  {
    seq(firstWeekday, _ => Blank)
      + seq(|monthDays|, j requires 0 <= j < |monthDays| => DayCell(monthDays[j], BadgeFor(CellPoints(gains, monthDays[j]))))
  }

  /** The footer, as written: `Object.values(dailyGains).reduce(+, 0)`, the
      sum of every day in the record, whatever its month. */
  ghost function FooterTotal(gains: map<DayKey, int>): (r: int)
    ensures gains == map[] ==> r == 0
    ensures forall k :: k in gains ==> r == gains[k] + SumValues(gains - {k})
  {
    forall k | k in gains
      ensures SumValues(gains) == gains[k] + SumValues(gains - {k})
    {
      SumValuesRemove(gains, k);
    }
    SumValues(gains)
  }

  /** The footer as its label "本月累计获得" (gained this month) reads: the sum
      of the cells of the month's days. */
  function MonthTotal(gains: map<DayKey, int>, monthDays: seq<DayKey>): (r: int)
    ensures (forall j :: 0 <= j < |monthDays| ==> monthDays[j] !in gains) ==> r == 0
    ensures (forall k :: k in gains ==> gains[k] > 0) ==> r >= 0
  {
    if monthDays == [] then 0
    else MonthTotal(gains, monthDays[..|monthDays| - 1]) + CellPoints(gains, monthDays[|monthDays| - 1])
  }

  /** The sum of the positive deltas recorded on one of `days`. */
  function SumPositiveOn(logs: seq<PointLog>, dayOf: int -> DayKey, days: set<DayKey>): int
  {
    if logs == [] then 0
    else
      var log := logs[|logs| - 1];
      SumPositiveOn(logs[..|logs| - 1], dayOf, days) + (if log.delta > 0 && dayOf(log.timestamp) in days then log.delta else 0)
  }

  predicate Distinct(monthDays: seq<DayKey>)
  {
    forall i, j :: 0 <= i < j < |monthDays| ==> monthDays[i] != monthDays[j]
  }

  // ---------------------------------------------------------------------------
  // Lemmas

  /** A cell shows exactly the gain recorded on its day. */
  lemma CellPointsAreGain(logs: seq<PointLog>, dayOf: int -> DayKey, dateStr: DayKey)
    ensures CellPoints(DailyGains(logs, dayOf), dateStr) == GainOn(logs, dayOf, dateStr)
  {
    GainOnPositiveIff(logs, dayOf, dateStr);
  }

  /** A day's badge is shown iff some gain was recorded that day. */
  lemma BadgeShownIffGain(logs: seq<PointLog>, dayOf: int -> DayKey, dateStr: DayKey)
    ensures BadgeFor(CellPoints(DailyGains(logs, dayOf), dateStr)).Gain? <==>
      exists i :: 0 <= i < |logs| && logs[i].delta > 0 && dayOf(logs[i].timestamp) == dateStr
  {
    CellPointsAreGain(logs, dayOf, dateStr);
    GainOnPositiveIff(logs, dayOf, dateStr);
    DailyGainsCharacterization(logs, dayOf);
  }

  /** The footer is the sum of every positive delta in the log, so it is
      never negative. */
  lemma FooterIsAllGains(logs: seq<PointLog>, dayOf: int -> DayKey)
    ensures FooterTotal(DailyGains(logs, dayOf)) == SumPositive(logs)
    ensures FooterTotal(DailyGains(logs, dayOf)) >= 0
  {
    TotalGains(logs, dayOf);
    SumPositiveNonNegative(logs);
  }

  lemma {:induction false} SumPositiveOnAdd(logs: seq<PointLog>, dayOf: int -> DayKey, days: set<DayKey>, day: DayKey)
    requires day !in days
    ensures SumPositiveOn(logs, dayOf, days + {day}) == SumPositiveOn(logs, dayOf, days) + GainOn(logs, dayOf, day)
  {
    if logs != [] {
      SumPositiveOnAdd(logs[..|logs| - 1], dayOf, days, day);
    }
  }

  /** The month total counts exactly the gains recorded on the month's days. */
  lemma {:induction false} MonthTotalIsMonthGains(logs: seq<PointLog>, dayOf: int -> DayKey, monthDays: seq<DayKey>)
    requires Distinct(monthDays)
    ensures MonthTotal(DailyGains(logs, dayOf), monthDays) == SumPositiveOn(logs, dayOf, set d | d in monthDays)
  {
    if monthDays == [] {
      assert (set d | d in monthDays) == {};
      SumPositiveOnEmpty(logs, dayOf);
    } else {
      var init, last := monthDays[..|monthDays| - 1], monthDays[|monthDays| - 1];
      DaysOfLast(monthDays);
      MonthTotalIsMonthGains(logs, dayOf, init);
      SumPositiveOnAdd(logs, dayOf, (set d | d in init), last);
      CellPointsAreGain(logs, dayOf, last);
    }
  }

  /** The days of a distinct list are those of its prefix plus its last day,
      which the prefix does not hold. */
  lemma DaysOfLast(monthDays: seq<DayKey>)
    requires monthDays != [] && Distinct(monthDays)
    ensures var init, last := monthDays[..|monthDays| - 1], monthDays[|monthDays| - 1];
      && Distinct(init)
      && (set d | d in monthDays) == (set d | d in init) + {last}
      && last !in (set d | d in init)
  {
    var init, last := monthDays[..|monthDays| - 1], monthDays[|monthDays| - 1];
    assert monthDays == init + [last];
  }

  lemma {:induction false} SumPositiveOnEmpty(logs: seq<PointLog>, dayOf: int -> DayKey)
    ensures SumPositiveOn(logs, dayOf, {}) == 0
  {
    if logs != [] {
      SumPositiveOnEmpty(logs[..|logs| - 1], dayOf);
    }
  }

  /** The footer as written counts gains from other months: a single gain of 3
      recorded on the last day of January shows 3 in February's footer, while
      no February cell shows anything. */
  lemma FooterCountsOtherMonths()
    ensures var dayOf := (t: int) => if t < 0 then "2024-01-31" else "2024-02-01";
      var logs := [PointLog("1", -1, "完成 写字", 3, Some("writing_daily"))];
      var february := ["2024-02-01", "2024-02-02"];
      && FooterTotal(DailyGains(logs, dayOf)) == 3
      && MonthTotal(DailyGains(logs, dayOf), february) == 0
  {
    var dayOf := (t: int) => if t < 0 then "2024-01-31" else "2024-02-01";
    var logs := [PointLog("1", -1, "完成 写字", 3, Some("writing_daily"))];
    var february := ["2024-02-01", "2024-02-02"];
    FooterIsAllGains(logs, dayOf);
    assert logs[..0] == [];
    var gains := DailyGains(logs, dayOf);
    CellPointsAreGain(logs, dayOf, "2024-02-01");
    CellPointsAreGain(logs, dayOf, "2024-02-02");
    assert february[..1] == ["2024-02-01"] && february[..1][..0] == [];
  }
}
