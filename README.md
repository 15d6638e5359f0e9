# Daily task points: a Dafny model of the card, spend, calendar and catalog logic

The application tracks a child's daily tasks and a reward-point balance. It
has four kinds of task: simple, timed with a bonus, split into sub-tasks, and
tiered. The shown repository does not contain the state engine: there is no
code that keeps the log, resets the day or persists anything. This model
therefore covers the logic that *is* there, around that engine:

- **Daily gains** (`utils.dfy`, module `Utils`). `getDailyGains` is a loop
  that builds a record from calendar day to the sum of that day's positive
  deltas. It is modelled as the method `GetDailyGains` and proved against a
  declarative map, `DailyGains`. The timestamp-to-day step (`format(new
  Date(ts), 'yyyy-MM-dd')`) is the parameter `dayOf`.
- **Task cards** (`task_card.dfy`, module `TaskCard`). There are four click
  handlers. Each emits one command, `Complete(points, description,
  instanceId)` or `Revoke(instanceId)`. `OnClick` models `renderContent`: which
  buttons are on the card, which are disabled, and what each one emits. The
  `bonusChecked` state is the class `CardState`.
- **Spending** (`spending_modal.dfy`, module `SpendingModal`, using
  `js_text.dfy`, module `JsText`, for JavaScript's `trim` and `parseInt`). The
  checks run in order: amount, then balance, then item. The form's fields are
  the class `SpendForm`. Its `Submit` method either rejects (the message is
  set and nothing else changes) or succeeds (`onSpend` is called once, all
  fields are cleared, and the form closes).
- **Calendar** (`calendar_view.dfy`, module `CalendarView`). This covers the
  cell lookup with default 0, the badge rule, the leading blank cells and the
  footer total.
- **Catalog** (`constants.dfy`, module `Constants`). `SCHOOL_TASKS` and
  `HOME_TASKS` are constants. Lemmas prove they are well formed and that the
  instance-id scheme has no collisions over them. Scenario lemmas apply the
  card functions to catalog entries.

Shared records are in `types.dfy` (module `Types`). Points and timestamps are
unbounded integers.

## Model

| member | source | states |
|---|---|---|
| Utils.GetDailyGains | src/utils.ts:15-26 | the loop's record equals the declarative `DailyGains`: each day with a positive delta maps to that day's summed gain, and every stored value is positive |
| Utils.DailyGainsCharacterization | src/utils.ts:18-23 | a day is a key iff some log with a positive delta falls on it; its value is the sum of that day's positive deltas, and it is strictly positive |
| Utils.GainOnPositiveIff | src/utils.ts:19-21 | a day's summed gain is positive exactly when a gain was recorded that day, and is never negative |
| Utils.EmptyLogsNoGains | src/utils.ts:16 | the empty log yields the empty record |
| Utils.DailyGainsAppend | src/utils.ts:18-23 | appending one log changes the record only at that log's day, and only by adding its delta when the delta is positive |
| Utils.SpendsIgnored | src/utils.ts:19 | a log with delta <= 0 (a spend or a zero entry), inserted anywhere, leaves the record unchanged |
| Utils.GainOnConcat | src/utils.ts:18-23 | a day's gain is additive over concatenated logs |
| Utils.GainOnIncludes | src/utils.ts:18-23 | each log's own contribution is part of its day's gain |
| Utils.GainOnPermutation | src/utils.ts:18-23 | a day's gain does not depend on the order of the log |
| Utils.OrderIndependent | src/utils.ts:18-23 | two logs with the same entries, in any order, yield the same record |
| Utils.SameDayGainCounted | src/utils.ts:28-30 | a gain whose timestamp `isSameDayAsLog` matches `date` appears in `date`'s entry, in full |
| Utils.SumValuesRemove | src/components/CalendarView.tsx:71 | the sum of a record's values removes exactly one value when its key is removed, whichever key is taken first |
| Utils.SumValuesAdd | src/components/CalendarView.tsx:71 | adding `v` to one day's entry (0 when absent) adds exactly `v` to the sum of the record's values |
| Utils.TotalGains | src/utils.ts:18-23 | the values of the record sum to the sum of all positive deltas in the log |
| Utils.SpendsExcludedScenario | src/utils.ts:15-26 | +3 and -2 on one day and +5 on the next give {day 1: 3, day 2: 5} |
| JsText.IsJsWhitespace | src/components/SpendingModal.tsx:29 | the characters `trim` and `parseInt` skip, ECMAScript WhiteSpace and LineTerminator; none of them is a digit, a letter or a sign |
| JsText.TrimStart | src/components/SpendingModal.tsx:29 | the result is a suffix of the input; it drops only whitespace and does not start with whitespace |
| JsText.TrimEnd | src/components/SpendingModal.tsx:29 | the result is a prefix of the input; it drops only whitespace and does not end with whitespace |
| JsText.Trim | src/components/SpendingModal.tsx:29 | `trim` returns a slice of the input, with only whitespace cut from each end, that neither starts nor ends with whitespace |
| JsText.TrimEmptyIff | src/components/SpendingModal.tsx:29 | `!item.trim()` holds iff every character of the item is JavaScript whitespace |
| JsText.DigitPrefixLength | src/components/SpendingModal.tsx:20 | `parseInt` reads the longest prefix of digits of the radix, and stops at the first non-digit |
| JsText.ParseMagnitude | src/components/SpendingModal.tsx:20 | the magnitude `parseInt` reads is never negative; a number is read only when the text begins with a decimal digit, and always is then unless a "0x"/"0X" prefix follows |
| JsText.ParseInt | src/components/SpendingModal.tsx:20 | a number is read only when the first non-blank character is a sign or a digit; a negative result needs a leading "-", and a leading "-" never gives a positive result |
| JsText.ParseIntDecimal | src/components/SpendingModal.tsx:20 | `parseInt` reads back the decimal numeral of every natural number |
| JsText.ParseIntNegativeDecimal | src/components/SpendingModal.tsx:20 | `parseInt` reads back "-" followed by a numeral as the negated number |
| JsText.ParseIntMinus | src/components/SpendingModal.tsx:20 | a leading "-" makes `parseInt` return the negation of the magnitude read after it, and NaN when no magnitude follows |
| JsText.ParseIntOfNumerals | src/components/SpendingModal.tsx:20 | "0", "5" and "-5" parse to 0, 5 and -5 |
| JsText.ParseIntOfTwoDigits | src/components/SpendingModal.tsx:20 | "11" parses to 11 |
| JsText.ParseIntOfEmptyAndTrailing | src/components/SpendingModal.tsx:20 | an empty field is NaN, and "3x" parses to 3 |
| SpendingModal.ErrorMessage | src/components/SpendingModal.tsx:21-31 | each rejection shows a non-empty message |
| SpendingModal.ErrorMessagesDistinct | src/components/SpendingModal.tsx:21-31 | two rejections show the same message iff they are the same rejection |
| SpendingModal.Validate | src/components/SpendingModal.tsx:20-32 | rejects with invalid-amount iff the amount is NaN or <= 0; with insufficient-points iff 0 < cost and cost > maxPoints; with missing-label iff the amount is valid and the item is all whitespace; an accepted cost satisfies 0 < cost <= maxPoints |
| SpendingModal.SpendForm.Submit | src/components/SpendingModal.tsx:18-39 | a rejection sets the error message, calls nothing, and leaves amount and item unchanged; a success calls `onSpend(cost, item)` once with the untrimmed item, clears amount, item and error, and closes the form |
| SpendingModal.SpendForm.SetItem | src/components/SpendingModal.tsx:65 | the item field takes the typed value; nothing else changes |
| SpendingModal.SpendForm.SetAmount | src/components/SpendingModal.tsx:76 | the amount field takes the typed value; nothing else changes |
| SpendingModal.SpendForm.constructor | src/components/SpendingModal.tsx:12-14 | all three fields start empty |
| SpendingModal.ChecksInOrder | src/components/SpendingModal.tsx:21-28 | a bad amount is reported whatever the balance and item; a too-large cost is reported whatever the item |
| SpendingModal.BalanceBoundary | src/components/SpendingModal.tsx:25-28 | cost == maxPoints passes the balance check; maxPoints + 1 fails it |
| SpendingModal.ZeroAmountReportedFirst | src/components/SpendingModal.tsx:21-32 | "0" with an empty item reports invalid-amount, not missing-label |
| SpendingModal.NegativeOrEmptyAmountRejected | src/components/SpendingModal.tsx:20-24 | "-5" and an empty field are rejected as invalid amounts |
| SpendingModal.OverBalanceRejected | src/components/SpendingModal.tsx:25-28 | "11" against a balance of 10 is rejected as insufficient points |
| SpendingModal.BlankItemRejected | src/components/SpendingModal.tsx:29-32 | an item of blanks only is rejected as missing-label |
| SpendingModal.PaddedItemAccepted | src/components/SpendingModal.tsx:29-34 | an item with surrounding blanks is accepted |
| Types.OrZero | src/components/TaskCard.tsx:40 | the "or 0" default on an optional number: the value when present, 0 when absent |
| TaskCard.DailyInstanceId | src/components/TaskCard.tsx:32-34 | the daily id is the task's id followed by "_daily" |
| TaskCard.SubTaskInstanceId | src/components/TaskCard.tsx:49 | a sub-task's id is the task's id, "_", then the sub-task's id |
| TaskCard.DailyIdMeetsSubTaskId | src/components/TaskCard.tsx:49-58 | within one task, a sub-task's id equals the daily id iff the sub-task's own id is "daily" |
| TaskCard.HandleSimpleComplete | src/components/TaskCard.tsx:30-36 | completes with `basePoints` or 0 and "完成 "+title exactly when not completed, otherwise revokes; both use id+"_daily" |
| TaskCard.HandleTimedComplete | src/components/TaskCard.tsx:38-46 | points are base + (bonusChecked ? bonus : 0), missing fields read as 0; the description gets the bonus suffix iff bonusChecked; completed tasks emit only Revoke(id+"_daily") |
| TaskCard.HandleSubTaskClick | src/components/TaskCard.tsx:48-55 | uses id+"_"+sub.id; completes with the sub-task's points iff that id is not in `completedSubTaskIds`, otherwise revokes it |
| TaskCard.HandleTierClick | src/components/TaskCard.tsx:57-68 | every tier uses id+"_daily"; completes with the clicked tier's points iff that id is absent, otherwise revokes |
| TaskCard.IsTierDone | src/components/TaskCard.tsx:141-142 | the tiered card counts today's tier as chosen iff the task's shared daily id is among the recorded ids |
| TaskCard.Enabled | src/components/TaskCard.tsx:70-196 | the main button is on simple and timed cards; the bonus box only on timed cards; one button per listed sub-task on sub-task cards; tier buttons only while no tier is recorded, and the revoke button only once one is |
| TaskCard.OnClick | src/components/TaskCard.tsx:70-196 | a control emits a command iff the card renders it enabled and it is not the bonus checkbox |
| TaskCard.ClaimLabelPoints | src/components/TaskCard.tsx:106 | defined for simple and timed cards, the only ones showing this label: the advertised number is missing exactly when a field the label reads is absent; otherwise it equals the points the matching handler awards |
| TaskCard.CardState.constructor | src/components/TaskCard.tsx:17 | the bonus box starts unticked |
| TaskCard.CardState.ToggleBonus | src/components/TaskCard.tsx:76 | the checkbox flips `bonusChecked` while not completed and is a no-op once completed |
| TaskCard.CardState.Click | src/components/TaskCard.tsx:76-196 | a click emits what `OnClick` gives for the current state; only an enabled bonus checkbox on an uncompleted card changes the state |
| TaskCard.SubTaskInstanceIdInjective | src/components/TaskCard.tsx:49 | within one task, two sub-tasks share an instance id iff they share a sub-task id |
| TaskCard.ClickInstanceIdConsistent | src/components/TaskCard.tsx:32-34 | whatever a control emits names the id fixed by the task and control, so Revoke names the id Complete recorded |
| TaskCard.ClickCompletesIffNotDone | src/components/TaskCard.tsx:31-66 | a control emits Complete exactly when its completion is not yet recorded, and Revoke otherwise |
| TaskCard.SubTaskToggles | src/components/TaskCard.tsx:48-55 | once the emitted id is recorded the same click revokes that id; once it is removed the click completes it again |
| TaskCard.SiblingIndependent | src/components/TaskCard.tsx:48-55 | recording or removing a sibling sub-task's id never changes what a sub-task's button emits |
| TaskCard.TiersShareOneInstance | src/components/TaskCard.tsx:57-67 | the clicked tier changes only the points; once any tier is recorded, every tier click revokes the same id |
| TaskCard.TieredCardOffers | src/components/TaskCard.tsx:140-172 | when the tier is done, all tier buttons are disabled and only Revoke(id+"_daily") is offered; before that, there is no revoke button and each tier claims its own points |
| TaskCard.ClaimLabelMatchesPoints | src/components/TaskCard.tsx:106 | the points a claim button advertises are the points a click awards |
| CalendarView.CellPoints | src/components/CalendarView.tsx:42 | a day's value is its entry in the record, or 0 when the day has none |
| CalendarView.BadgeFor | src/components/CalendarView.tsx:56-64 | the `+points` badge is shown iff the value is > 0, and shows that value; otherwise `-` |
| CalendarView.Grid | src/components/CalendarView.tsx:36-67 | first-weekday blanks (0..6), then exactly one cell per day of the month in order, each with the badge of its looked-up value |
| CalendarView.CellPointsAreGain | src/components/CalendarView.tsx:42 | a cell's value is `dailyGains[dateStr]` or 0 when absent, which is exactly that day's summed gain |
| CalendarView.BadgeShownIffGain | src/components/CalendarView.tsx:42-64 | a day shows a badge iff a positive delta was recorded that day |
| CalendarView.FooterTotal | src/components/CalendarView.tsx:71 | the footer as written: 0 for an empty record, and for every key the key's value plus the sum of the rest, so the order of `Object.values` does not matter |
| CalendarView.MonthTotal | src/components/CalendarView.tsx:71 | the corrected footer: 0 when no day of the month has an entry, and never negative over a record of positive gains |
| CalendarView.FooterIsAllGains | src/components/CalendarView.tsx:71 | the footer equals the sum of every positive delta in the log, whatever the month, and so is >= 0 |
| CalendarView.FooterCountsOtherMonths | src/components/CalendarView.tsx:71 | with a single January gain of 3, the February footer shows 3 while February's days sum to 0 |
| CalendarView.MonthTotalIsMonthGains | src/components/CalendarView.tsx:71 | the corrected month total equals the sum of positive deltas recorded on the month's days |
| CalendarView.SumPositiveOnAdd | src/components/CalendarView.tsx:71 | helper of `MonthTotalIsMonthGains`: adding one day to a set of days adds exactly that day's gain |
| CalendarView.SumPositiveOnEmpty | src/components/CalendarView.tsx:71 | base-case helper of `MonthTotalIsMonthGains`: no days, no gain |
| Constants.SchoolTasksEntries | src/constants.ts:3-38 | `SCHOOL_TASKS` (the constant `Constants.SchoolTasks`) entry by entry: the four ids in order, their reward types, base and bonus points, and no sub-tasks or tiers |
| Constants.HomeTasksEntries | src/constants.ts:40-100 | `HOME_TASKS` (the constant `Constants.HomeTasks`) entry by entry: the seven ids in order, their reward types and base points, no bonus points, the sub-task ids and points of raz and quanling, and piano's three tier points |
| Constants.CategoriesMatchLists | src/constants.ts:3-100 | every `SCHOOL_TASKS` entry is SCHOOL and every `HOME_TASKS` entry is HOME |
| Constants.CatalogWellFormed | src/constants.ts:3-100 | simple entries have basePoints; timed entries have basePoints and bonusPoints; sub-task and tiered entries have non-empty lists; every point value is positive |
| Constants.CatalogIdsDistinct | src/constants.ts:5-98 | task ids are pairwise distinct across both lists; sub-task ids are distinct within each task |
| Constants.SubTaskEntryInstanceIds | src/constants.ts:63-87 | the derived ids of the two sub-task entries |
| Constants.InstanceIdsConcat | src/constants.ts:3-100 | the derived ids of two task lists, concatenated, are the concatenation of their derived ids |
| Constants.SchoolInstanceIds | src/constants.ts:3-38 | the derived ids of `SCHOOL_TASKS` |
| Constants.HomeInstanceIds | src/constants.ts:40-100 | the derived ids of `HOME_TASKS` |
| Constants.CatalogInstanceIds | src/constants.ts:3-100 | the card scheme derives exactly these thirteen instance ids for the catalog |
| Constants.CatalogInstanceIdsDistinct | src/constants.ts:3-100 | no two completions in the catalog share an instance id |
| Constants.SchemeNeedsCatalogIds | src/components/TaskCard.tsx:32 | distinct task ids, plus no sub-task id equal to "daily", do not rule out collisions in general ("a_b"+"_daily" = "a"+"_"+"b_daily") |
| Constants.ChineseWithBonus | src/components/TaskCard.tsx:38-46 | chinese with the bonus claims 3 + 2 = 5 under "chinese_daily", without it 3; once completed it revokes "chinese_daily" |
| Constants.PianoTierOnceADay | src/components/TaskCard.tsx:140-172 | the middle piano tier claims 4; once recorded, no tier can be chosen and only the revoke is offered |
| Constants.RazVideoClaim | src/components/TaskCard.tsx:48-55 | the RAZ video button claims 2 points as "raz_raz_video" |
| Constants.RazSubTasksIndependent | src/components/TaskCard.tsx:48-55 | completing the RAZ video leaves the homework claimable for 3 points, and turns the video button into a revoke |

## Findings

| source | as written | input that shows it | evidently intended | confidence | as-written member | corrected member |
|---|---|---|---|---|---|---|
| src/components/CalendarView.tsx:71 | the footer labelled "本月累计获得" (gained this month) sums every value of `dailyGains`, which holds every day in the whole log | one gain of 3 dated 2024-01-31, viewed in February 2024: the footer shows 3, but no February cell shows anything | the sum of the gains on the days of the shown month | medium, not executed | CalendarView.FooterTotal, CalendarView.FooterCountsOtherMonths | CalendarView.MonthTotal, CalendarView.MonthTotalIsMonthGains |

`FooterTotal` keeps the code as written, because the page shows exactly that
value. `MonthTotal` is the corrected definition, and the finding's proof is
stated about it.

## Left out

- The state engine: the point log, appending and deleting entries, the
  completed-id list, the daily reset and persistence. None of these is in the
  shown code; `src/App.tsx` is a placeholder. The cards' outputs are therefore
  modelled as emitted commands, and completion state enters only as props.
- Dates and the clock: `format`, `getTodayStr`, `startOfMonth`,
  `eachDayOfInterval`, `getDay` and `isToday`. These depend on the clock and
  the timezone. They become the parameter `dayOf`, plus the month's day keys
  and first weekday as inputs. The today highlight of a cell is not modelled.
- CalendarView.Grid: takes the month's days as given. It therefore does not
  prove that they are the month's days, or that they are distinct.
  `MonthTotalIsMonthGains` assumes they are distinct.
- JsText.ParseInt and JsText.ParseMagnitude: JavaScript numbers are IEEE
  doubles, but this model reads digits as exact integers. Rounding of very
  long numerals, and `-0`, are not modelled; `-0` is rejected either way.
- Utils.GetDailyGains: reads `days[dayStr] || 0` as "the value when present,
  else 0". The two differ only at a stored 0, and stored values are never 0.
- Styling, animation and the `isExpanded` toggle of a card. Content controls
  are modelled as if the card is expanded.
- The status line of `Header.tsx`, and `vite.config.ts` and
  `tailwind.config.js`: each only displays or configures.
- The spend form's `isOpen` gating and its close button. Closing does not
  change the fields, so nothing there is modelled.
- Localized description texts are modelled as plain string concatenation;
  nothing parses them.
- `isSameDayAsLog` is the predicate `Utils.IsSameDayAsLog`. Its definition is
  the equality of day keys, so it has no contract of its own.
  `Utils.SameDayGainCounted` is what is proved about it.
