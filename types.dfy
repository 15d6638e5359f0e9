/** The record shapes shared by the whole application (src/types.ts). */
module Types {

  /** An optional value: a TypeScript `field?: T` or a `number | NaN`. */
  datatype Option<T> = None | Some(value: T)

  /** `x || 0` on an optional number: the value when present, 0 otherwise. */
  function OrZero(o: Option<int>): (r: int)
    ensures o.Some? ==> r == o.value
    ensures o.None? ==> r == 0
  {
    match o
    case Some(v) => v
    case None => 0
  }

  /** How a task is rewarded. */
  datatype TaskType = Simple | TimedBonus | MultiSubtask | Tiered

  datatype Category = School | Home

  /** One independently completable step of a MULTI_SUBTASK task. */
  datatype SubTask = SubTask(id: string, labelText: string, points: int)

  /** One of the mutually exclusive reward levels of a TIERED task. */
  datatype TierOption = TierOption(id: string, labelText: string, points: int)

  /** A catalog entry; which optional fields are set depends on `taskType`. */
  datatype TaskDefinition = TaskDefinition(
    id: string,
    title: string,
    category: Category,
    taskType: TaskType,
    basePoints: Option<int>,
    bonusPoints: Option<int>,
    bonusConditionLabel: Option<string>,
    subTasks: Option<seq<SubTask>>,
    tiers: Option<seq<TierOption>>)

  /** One ledger entry: a positive delta is a gain, a negative one a spend.
      `timestamp` is milliseconds since the epoch. */
  datatype PointLog = PointLog(
    id: string,
    timestamp: int,
    description: string,
    delta: int,
    taskId: Option<string>)
}
