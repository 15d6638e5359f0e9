/** Day grouping of the point log (src/utils.ts).

    The source turns a timestamp into its local calendar day with
    `format(new Date(ts), 'yyyy-MM-dd')`.  Here that clock- and
    timezone-dependent step is the parameter `dayOf`: every member below holds
    for any way of mapping timestamps to day keys. */
module Utils {
  import opened Types

  /** A calendar-day key such as "2024-01-01". */
  type DayKey = string

  /** `isSameDayAsLog`: the log's timestamp and `date` fall on the same day. */
  predicate IsSameDayAsLog(logTimestamp: int, date: int, dayOf: int -> DayKey)
  {
    dayOf(logTimestamp) == dayOf(date)
  }

  /** What one log adds to the gain of `day`: its delta if it is a gain
      recorded that day, nothing otherwise. */
  function Contribution(log: PointLog, dayOf: int -> DayKey, day: DayKey): int
  {
    if log.delta > 0 && dayOf(log.timestamp) == day then log.delta else 0
  }

  /** Reference definition: the sum of the positive deltas recorded on `day`. */
  function GainOn(logs: seq<PointLog>, dayOf: int -> DayKey, day: DayKey): int
  {
    if logs == [] then 0
    else GainOn(logs[..|logs| - 1], dayOf, day) + Contribution(logs[|logs| - 1], dayOf, day)
  }

  /** Reference definition: the days on which at least one gain was recorded. */
  function GainDays(logs: seq<PointLog>, dayOf: int -> DayKey): set<DayKey>
  {
    set log | log in logs && log.delta > 0 :: dayOf(log.timestamp)
  }

  /** Reference definition of `getDailyGains`: each day with a gain, mapped to
      the total gained that day. */
  function DailyGains(logs: seq<PointLog>, dayOf: int -> DayKey): map<DayKey, int>
  {
    map day | day in GainDays(logs, dayOf) :: GainOn(logs, dayOf, day)
  }

  /** The sum of all positive deltas of the log, whatever their day. */
  function SumPositive(logs: seq<PointLog>): int
  {
    if logs == [] then 0
    else SumPositive(logs[..|logs| - 1]) + (if logs[|logs| - 1].delta > 0 then logs[|logs| - 1].delta else 0)
  }

  /** The sum of the values of a day-keyed record (`Object.values(m)` summed). */
  ghost function SumValues(m: map<DayKey, int>): int
    decreases |m|
  {
    if m == map[] then 0
    else
      var k :| k in m;
      assert (m - {k}).Keys == m.Keys - {k};
      m[k] + SumValues(m - {k})
  }

  /** `getDailyGains`: the `forEach` over the log that builds the `days`
      record, adding each positive delta to its day's entry. */
  method GetDailyGains(logs: seq<PointLog>, dayOf: int -> DayKey) returns (days: map<DayKey, int>)
    ensures days == DailyGains(logs, dayOf)
    ensures forall day :: day in days ==> days[day] > 0
  {
    days := map[];
    var i := 0;
    while i < |logs|
      invariant 0 <= i <= |logs|
      invariant days == DailyGains(logs[..i], dayOf)
    {
      var log := logs[i];
      if log.delta > 0 {
        var dayStr := dayOf(log.timestamp);
        days := days[dayStr := (if dayStr in days then days[dayStr] else 0) + log.delta];
      }
      DailyGainsAppend(logs[..i], log, dayOf);
      assert logs[..i + 1] == logs[..i] + [log];
      i := i + 1;
    }
    assert logs[..|logs|] == logs;
    DailyGainsCharacterization(logs, dayOf);
  }

  // ---------------------------------------------------------------------------
  // Lemmas about the reference definitions

  lemma {:induction false} GainOnNonNegative(logs: seq<PointLog>, dayOf: int -> DayKey, day: DayKey)
    ensures GainOn(logs, dayOf, day) >= 0
  {
    if logs != [] {
      GainOnNonNegative(logs[..|logs| - 1], dayOf, day);
    }
  }

  /** The gain of a day is positive exactly when some gain was recorded that day. */
  lemma {:induction false} GainOnPositiveIff(logs: seq<PointLog>, dayOf: int -> DayKey, day: DayKey)
    ensures GainOn(logs, dayOf, day) > 0 <==> day in GainDays(logs, dayOf)
    ensures GainOn(logs, dayOf, day) >= 0
  {
    if logs != [] {
      var init, last := logs[..|logs| - 1], logs[|logs| - 1];
      GainOnPositiveIff(init, dayOf, day);
      assert logs == init + [last];
      assert GainDays(logs, dayOf) == GainDays(init, dayOf) + (if last.delta > 0 then {dayOf(last.timestamp)} else {});
    }
  }

  /** The gain of a day is additive over concatenation of logs. */
  lemma {:induction false} GainOnConcat(a: seq<PointLog>, b: seq<PointLog>, dayOf: int -> DayKey, day: DayKey)
    ensures GainOn(a + b, dayOf, day) == GainOn(a, dayOf, day) + GainOn(b, dayOf, day)
    decreases |b|
  {
    if b == [] {
      assert a + b == a;
    } else {
      var b', x := b[..|b| - 1], b[|b| - 1];
      assert (a + b)[..|a + b| - 1] == a + b';
      GainOnConcat(a, b', dayOf, day);
    }
  }

  /** Every log's own contribution is part of its day's gain. */
  lemma {:induction false} GainOnIncludes(logs: seq<PointLog>, i: nat, dayOf: int -> DayKey, day: DayKey)
    requires i < |logs|
    ensures GainOn(logs, dayOf, day) >= Contribution(logs[i], dayOf, day)
  {
    assert logs == logs[..i] + [logs[i]] + logs[i + 1..];
    GainOnConcat(logs[..i] + [logs[i]], logs[i + 1..], dayOf, day);
    GainOnConcat(logs[..i], [logs[i]], dayOf, day);
    GainOnNonNegative(logs[..i], dayOf, day);
    GainOnNonNegative(logs[i + 1..], dayOf, day);
    assert [logs[i]][..0] == [];
  }

  /** A key is present iff a positive-delta log falls on that day; its value is
      that day's gain, and so it is strictly positive. */
  lemma DailyGainsCharacterization(logs: seq<PointLog>, dayOf: int -> DayKey)
    ensures forall day :: day in DailyGains(logs, dayOf) <==>
      (exists i :: 0 <= i < |logs| && logs[i].delta > 0 && dayOf(logs[i].timestamp) == day)
    ensures forall day :: day in DailyGains(logs, dayOf) ==>
      DailyGains(logs, dayOf)[day] == GainOn(logs, dayOf, day) && DailyGains(logs, dayOf)[day] > 0
  {
    forall day | day in DailyGains(logs, dayOf)
      ensures DailyGains(logs, dayOf)[day] > 0
    {
      GainOnPositiveIff(logs, dayOf, day);
    }
    forall day | day in DailyGains(logs, dayOf)
      ensures exists i :: 0 <= i < |logs| && logs[i].delta > 0 && dayOf(logs[i].timestamp) == day
    {
      var log :| log in logs && log.delta > 0 && dayOf(log.timestamp) == day;
      var i :| 0 <= i < |logs| && logs[i] == log;
    }
  }

  /** The empty log yields the empty record. */
  lemma EmptyLogsNoGains(dayOf: int -> DayKey)
    ensures DailyGains([], dayOf) == map[]
  {
  }

  /** Appending one log changes the result only at that log's day, and only by
      its delta when the delta is positive. */
  lemma {:induction false} DailyGainsAppend(logs: seq<PointLog>, log: PointLog, dayOf: int -> DayKey)
    ensures var m, d := DailyGains(logs, dayOf), dayOf(log.timestamp);
      DailyGains(logs + [log], dayOf) ==
        if log.delta > 0 then m[d := (if d in m then m[d] else 0) + log.delta] else m
  {
    var m, d := DailyGains(logs, dayOf), dayOf(log.timestamp);
    var m' := DailyGains(logs + [log], dayOf);
    var r := if log.delta > 0 then m[d := (if d in m then m[d] else 0) + log.delta] else m;
    GainDaysAppend(logs, log, dayOf);
    assert m'.Keys == r.Keys;
    forall day | day in m'
      ensures m'[day] == r[day]
    {
      GainOnAppend(logs, log, dayOf, day);
      if day == d && log.delta > 0 {
        GainOnPositiveIff(logs, dayOf, d);
      }
    }
  }

  lemma GainDaysAppend(logs: seq<PointLog>, log: PointLog, dayOf: int -> DayKey)
    ensures GainDays(logs + [log], dayOf) == GainDays(logs, dayOf) + (if log.delta > 0 then {dayOf(log.timestamp)} else {})
  {
    forall day | day in GainDays(logs + [log], dayOf)
      ensures day in GainDays(logs, dayOf) + (if log.delta > 0 then {dayOf(log.timestamp)} else {})
    {
      var l :| l in logs + [log] && l.delta > 0 && dayOf(l.timestamp) == day;
      assert l in logs || l == log;
    }
    forall day | day in GainDays(logs, dayOf) ensures day in GainDays(logs + [log], dayOf) {
      var l :| l in logs && l.delta > 0 && dayOf(l.timestamp) == day;
      assert l in logs + [log];
    }
    if log.delta > 0 {
      assert log in logs + [log];
    }
  }

  lemma GainOnAppend(logs: seq<PointLog>, log: PointLog, dayOf: int -> DayKey, day: DayKey)
    ensures GainOn(logs + [log], dayOf, day) == GainOn(logs, dayOf, day) + Contribution(log, dayOf, day)
  {
    assert (logs + [log])[..|logs + [log]| - 1] == logs;
  }

  /** A log that is not a gain (a spend, or a zero entry) never affects the
      result, wherever it stands in the log. */
  lemma {:induction false} SpendsIgnored(a: seq<PointLog>, log: PointLog, b: seq<PointLog>, dayOf: int -> DayKey)
    requires log.delta <= 0
    ensures DailyGains(a + [log] + b, dayOf) == DailyGains(a + b, dayOf)
  {
    assert GainDays(a + [log] + b, dayOf) == GainDays(a + b, dayOf) by {
      forall day | day in GainDays(a + [log] + b, dayOf) ensures day in GainDays(a + b, dayOf) {
        var l :| l in a + [log] + b && l.delta > 0 && dayOf(l.timestamp) == day;
        assert l in a + b;
      }
      forall day | day in GainDays(a + b, dayOf) ensures day in GainDays(a + [log] + b, dayOf) {
        var l :| l in a + b && l.delta > 0 && dayOf(l.timestamp) == day;
        assert l in a + [log] + b;
      }
    }
    forall day ensures GainOn(a + [log] + b, dayOf, day) == GainOn(a + b, dayOf, day) {
      GainOnConcat(a + [log], b, dayOf, day);
      GainOnConcat(a, [log], dayOf, day);
      GainOnConcat(a, b, dayOf, day);
      assert [log][..0] == [];
    }
  }

  /** The gain of a day does not depend on the order of the log. */
  lemma {:induction false} GainOnPermutation(a: seq<PointLog>, b: seq<PointLog>, dayOf: int -> DayKey, day: DayKey)
    requires multiset(a) == multiset(b)
    ensures GainOn(a, dayOf, day) == GainOn(b, dayOf, day)
    decreases |a|
  {
    if a == [] {
      assert |b| == |multiset(b)| == 0;
    } else {
      var a', x := a[..|a| - 1], a[|a| - 1];
      assert a == a' + [x];
      assert x in multiset(b);
      var j :| 0 <= j < |b| && b[j] == x;
      var b' := b[..j] + b[j + 1..];
      assert b == b[..j] + [x] + b[j + 1..];
      calc {
        multiset(a');
        multiset(a) - multiset{x};
        multiset(b) - multiset{x};
        multiset(b[..j]) + multiset{x} + multiset(b[j + 1..]) - multiset{x};
        multiset(b');
      }
      GainOnPermutation(a', b', dayOf, day);
      GainOnConcat(b[..j] + [x], b[j + 1..], dayOf, day);
      GainOnConcat(b[..j], [x], dayOf, day);
      GainOnConcat(b[..j], b[j + 1..], dayOf, day);
      assert [x][..0] == [];
    }
  }

  /** The result does not depend on the order of the log. */
  lemma OrderIndependent(a: seq<PointLog>, b: seq<PointLog>, dayOf: int -> DayKey)
    requires multiset(a) == multiset(b)
    ensures DailyGains(a, dayOf) == DailyGains(b, dayOf)
  {
    forall log ensures log in a <==> log in b {
      assert log in a <==> log in multiset(a);
      assert log in b <==> log in multiset(b);
    }
    assert GainDays(a, dayOf) == GainDays(b, dayOf);
    forall day ensures GainOn(a, dayOf, day) == GainOn(b, dayOf, day) {
      GainOnPermutation(a, b, dayOf, day);
    }
  }

  /** A gain recorded on the same day as `date` is counted, in full, in the
      entry for `date`'s day. */
  lemma SameDayGainCounted(logs: seq<PointLog>, i: nat, date: int, dayOf: int -> DayKey)
    requires i < |logs| && logs[i].delta > 0
    requires IsSameDayAsLog(logs[i].timestamp, date, dayOf)
    ensures dayOf(date) in DailyGains(logs, dayOf)
    ensures DailyGains(logs, dayOf)[dayOf(date)] >= logs[i].delta
  {
    assert logs[i] in logs;
    GainOnIncludes(logs, i, dayOf, dayOf(date));
  }

  /** Removing a key from a record removes exactly its value from the sum,
      whichever key `SumValues` happens to pick first. */
  lemma {:induction false} SumValuesRemove(m: map<DayKey, int>, k: DayKey)
    requires k in m
    ensures SumValues(m) == m[k] + SumValues(m - {k})
    decreases |m|
  {
    var k' :| k' in m && SumValues(m) == m[k'] + SumValues(m - {k'});
    if k' != k {
      assert (m - {k'}).Keys == m.Keys - {k'};
      assert (m - {k}).Keys == m.Keys - {k};
      SumValuesRemove(m - {k'}, k);
      SumValuesRemove(m - {k}, k');
      assert m - {k'} - {k} == m - {k} - {k'};
    }
  }

  /** Adding `v` to one key's entry (0 when absent) adds `v` to the sum. */
  lemma SumValuesAdd(m: map<DayKey, int>, d: DayKey, v: int)
    ensures SumValues(m[d := (if d in m then m[d] else 0) + v]) == SumValues(m) + v
  {
    var m' := m[d := (if d in m then m[d] else 0) + v];
    SumValuesRemove(m', d);
    assert m' - {d} == m - {d};
    if d in m {
      SumValuesRemove(m, d);
    } else {
      assert m - {d} == m;
    }
  }

  /** `DailyGainsAppend` stated on the log's last entry. */
  lemma DailyGainsLast(logs: seq<PointLog>, dayOf: int -> DayKey)
    requires logs != []
    ensures var log := logs[|logs| - 1];
      var m, d := DailyGains(logs[..|logs| - 1], dayOf), dayOf(log.timestamp);
      DailyGains(logs, dayOf) ==
        if log.delta > 0 then m[d := (if d in m then m[d] else 0) + log.delta] else m
  {
    DailyGainsAppend(logs[..|logs| - 1], logs[|logs| - 1], dayOf);
    assert logs == logs[..|logs| - 1] + [logs[|logs| - 1]];
  }

  /** The values of the record sum to the sum of all positive deltas. */
  lemma {:induction false} TotalGains(logs: seq<PointLog>, dayOf: int -> DayKey)
    ensures SumValues(DailyGains(logs, dayOf)) == SumPositive(logs)
  {
    if logs != [] {
      var init, log := logs[..|logs| - 1], logs[|logs| - 1];
      TotalGains(init, dayOf);
      DailyGainsLast(logs, dayOf);
      if log.delta > 0 {
        SumValuesAdd(DailyGains(init, dayOf), dayOf(log.timestamp), log.delta);
      }
    }
  }

  lemma {:induction false} SumPositiveNonNegative(logs: seq<PointLog>)
    ensures SumPositive(logs) >= 0
  {
    if logs != [] {
      SumPositiveNonNegative(logs[..|logs| - 1]);
    }
  }

  /** A gain of 3 and a spend of 2 on one day and a gain of 5 the next give
      3 and 5: the spend does not lower its day's gain. */
  lemma SpendsExcludedScenario()
    ensures var dayOf := (t: int) => if t < 100 then "2024-01-01" else "2024-01-02";
      var logs := [PointLog("1", 10, "完成 写字", 3, Some("writing_daily")), PointLog("2", 20, "乐高积木", -2, None),
                   PointLog("3", 200, "完成 学而思", 5, Some("xueersi_daily"))];
      DailyGains(logs, dayOf) == map["2024-01-01" := 3, "2024-01-02" := 5]
  {
    var dayOf := (t: int) => if t < 100 then "2024-01-01" else "2024-01-02";
    var l1, l2, l3 := PointLog("1", 10, "完成 写字", 3, Some("writing_daily")), PointLog("2", 20, "乐高积木", -2, None),
                      PointLog("3", 200, "完成 学而思", 5, Some("xueersi_daily"));
    DailyGainsAppend([], l1, dayOf);
    assert [] + [l1] == [l1];
    DailyGainsAppend([l1], l2, dayOf);
    DailyGainsAppend([l1, l2], l3, dayOf);
    assert [l1] + [l2] == [l1, l2];
    assert [l1, l2] + [l3] == [l1, l2, l3];
  }
}
