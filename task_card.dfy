/** The decision logic of one task card (src/components/TaskCard.tsx).

    A card receives its task, whether today's completion is recorded
    (`isCompleted`, for simple and timed tasks) and the recorded instance ids
    (`completedSubTaskIds`, for sub-task and tiered tasks).  Every click emits
    at most one command to the state engine, which is outside this model:
    `Complete(points, description, instanceId)` or `Revoke(instanceId)`. */
module TaskCard {
  import opened Types

  /** The callback a click fires: `onComplete(points, description, id)` or
      `onRevoke(id)`. */
  datatype Action = Complete(points: int, description: string, instanceId: string) | Revoke(instanceId: string)

  /** What reaches the card from its parent as props. */
  datatype Props = Props(task: TaskDefinition, isCompleted: bool, completedSubTaskIds: seq<string>)

  /** The clickable controls a card can render. Sub-task and tier buttons are
      addressed by their position in the task's list. */
  datatype Control = MainButton | BonusCheckbox | SubTaskButton(index: nat) | TierButton(index: nat) | TierRevokeButton

  const DonePrefix: string := "完成 "
  const BonusSuffix: string := " (额外奖励)"

  /** The day-scoped instance id of a simple, timed or tiered task. */
  function DailyInstanceId(task: TaskDefinition): (r: string)
    ensures |r| == |task.id| + 6 && r[..|task.id|] == task.id && r[|task.id|..] == "_daily"
  {
    task.id + "_daily"
  }

  /** The day-scoped instance id of one sub-task. */
  function SubTaskInstanceId(task: TaskDefinition, sub: SubTask): (r: string)
    ensures |r| == |task.id| + 1 + |sub.id|
    ensures r[..|task.id|] == task.id && r[|task.id|] == '_' && r[|task.id| + 1..] == sub.id
  {
    task.id + "_" + sub.id
  }

  /** Within one task, a sub-task's id collides with the daily id exactly when
      the sub-task is itself called "daily". */
  lemma DailyIdMeetsSubTaskId(task: TaskDefinition, sub: SubTask)
    ensures DailyInstanceId(task) == SubTaskInstanceId(task, sub) <==> sub.id == "daily"
  {
    assert DailyInstanceId(task) == task.id + "_" + "daily";
  }

  /** `handleSimpleComplete`: complete with the base points (0 when the task
      has none) while not completed, revoke the same daily id once it is. */
  function HandleSimpleComplete(task: TaskDefinition, isCompleted: bool): (a: Action)
    ensures a.instanceId == DailyInstanceId(task)
    ensures a.Complete? <==> !isCompleted
    ensures a.Complete? ==> a.points == OrZero(task.basePoints) && a.description == DonePrefix + task.title
  {
    if !isCompleted then Complete(OrZero(task.basePoints), DonePrefix + task.title, DailyInstanceId(task))
    else Revoke(DailyInstanceId(task))
  }

  /** `handleTimedComplete`: as the simple handler, but the bonus points are
      added, and the description marked, exactly when the bonus box is ticked. */
  function HandleTimedComplete(task: TaskDefinition, isCompleted: bool, bonusChecked: bool): (a: Action)
    ensures a.instanceId == DailyInstanceId(task)
    ensures a.Complete? <==> !isCompleted
    ensures a.Complete? ==>
      && a.points == OrZero(task.basePoints) + (if bonusChecked then OrZero(task.bonusPoints) else 0)
      && a.description == DonePrefix + task.title + (if bonusChecked then BonusSuffix else "")
  {
    if !isCompleted then
      var points := OrZero(task.basePoints) + (if bonusChecked then OrZero(task.bonusPoints) else 0);
      var desc := DonePrefix + task.title + (if bonusChecked then BonusSuffix else "");
      Complete(points, desc, DailyInstanceId(task))
    else Revoke(DailyInstanceId(task))
  }

  /** `handleSubTaskClick`: the sub-task's own id decides, by its membership in
      the recorded ids alone, between completing with the sub-task's points and
      revoking. */
  function HandleSubTaskClick(task: TaskDefinition, completedSubTaskIds: seq<string>, sub: SubTask): (a: Action)
    ensures a.instanceId == SubTaskInstanceId(task, sub)
    ensures a.Complete? <==> SubTaskInstanceId(task, sub) !in completedSubTaskIds
    ensures a.Complete? ==> a.points == sub.points && a.description == DonePrefix + task.title + " - " + sub.labelText
  {
    var uniqueId := SubTaskInstanceId(task, sub);
    if uniqueId !in completedSubTaskIds then Complete(sub.points, DonePrefix + task.title + " - " + sub.labelText, uniqueId)
    else Revoke(uniqueId)
  }

  /** `handleTierClick`: every tier shares the task's single daily id; while
      it is not recorded the clicked tier's points are claimed, afterwards the
      click revokes. */
  function HandleTierClick(task: TaskDefinition, completedSubTaskIds: seq<string>, tier: TierOption): (a: Action)
    ensures a.instanceId == DailyInstanceId(task)
    ensures a.Complete? <==> DailyInstanceId(task) !in completedSubTaskIds
    ensures a.Complete? ==> a.points == tier.points && a.description == DonePrefix + task.title + " (" + tier.labelText + ")"
  {
    var uniqueId := DailyInstanceId(task);
    var isAlreadyDone := uniqueId in completedSubTaskIds;
    if !isAlreadyDone then Complete(tier.points, DonePrefix + task.title + " (" + tier.labelText + ")", uniqueId)
    else Revoke(uniqueId)
  }

  /** Whether the tiered view counts today's tier as chosen. */
  predicate IsTierDone(p: Props): (b: bool)
    ensures b <==> exists k :: 0 <= k < |p.completedSubTaskIds| && p.completedSubTaskIds[k] == DailyInstanceId(p.task)
  {
    DailyInstanceId(p.task) in p.completedSubTaskIds
  }

  /** The sub-tasks and tiers the card lists (`task.subTasks?.map`, so none
      when the field is absent). */
  function SubTasksOf(task: TaskDefinition): seq<SubTask>
  {
    match task.subTasks
    case Some(subs) => subs
    case None => []
  }

  function TiersOf(task: TaskDefinition): seq<TierOption>
  {
    match task.tiers
    case Some(tiers) => tiers
    case None => []
  }

  /** `renderContent`: whether a control is on the card and can be clicked.
      The switch falls back to the simple button for any other type. */
  predicate Enabled(p: Props, c: Control): (b: bool)
    ensures c == MainButton ==> (b <==> p.task.taskType == Simple || p.task.taskType == TimedBonus)
    ensures c == BonusCheckbox ==> (b <==> p.task.taskType == TimedBonus)
    ensures c.SubTaskButton? ==> (b <==> p.task.taskType == MultiSubtask && c.index < |SubTasksOf(p.task)|)
    ensures c.TierButton? ==> (b <==> p.task.taskType == Tiered && c.index < |TiersOf(p.task)| && !IsTierDone(p))
    ensures c == TierRevokeButton ==> (b <==> p.task.taskType == Tiered && IsTierDone(p))
  {
    match p.task.taskType
    case TimedBonus => c == MainButton || c == BonusCheckbox
    case MultiSubtask => c.SubTaskButton? && c.index < |SubTasksOf(p.task)|
    case Tiered =>
      || (c.TierButton? && c.index < |TiersOf(p.task)| && !IsTierDone(p))
      || (c == TierRevokeButton && IsTierDone(p))
    case Simple => c == MainButton
  }

  /** The command a click on `c` emits, if any: none for a control that is not
      on the card or is disabled, and none for the bonus checkbox. */
  function OnClick(p: Props, bonusChecked: bool, c: Control): (a: Option<Action>)
    ensures a.Some? <==> Enabled(p, c) && c != BonusCheckbox
  {
    if !Enabled(p, c) then None
    else
      match c
      case MainButton =>
        if p.task.taskType == TimedBonus then Some(HandleTimedComplete(p.task, p.isCompleted, bonusChecked))
        else Some(HandleSimpleComplete(p.task, p.isCompleted))
      case BonusCheckbox => None
      case SubTaskButton(i) => Some(HandleSubTaskClick(p.task, p.completedSubTaskIds, SubTasksOf(p.task)[i]))
      case TierButton(i) => Some(HandleTierClick(p.task, p.completedSubTaskIds, TiersOf(p.task)[i]))
      case TierRevokeButton => Some(Revoke(DailyInstanceId(p.task)))
  }

  /** The instance id a control acts on, fixed by the task and the control alone. */
  function InstanceIdOf(task: TaskDefinition, c: Control): string
  {
    if c.SubTaskButton? && c.index < |SubTasksOf(task)| then SubTaskInstanceId(task, SubTasksOf(task)[c.index])
    else DailyInstanceId(task)
  }

  /** Whether the completion a control acts on is already recorded. */
  predicate IsDone(p: Props, c: Control)
  {
    match p.task.taskType
    case Simple => p.isCompleted
    case TimedBonus => p.isCompleted
    case MultiSubtask => InstanceIdOf(p.task, c) in p.completedSubTaskIds
    case Tiered => IsTierDone(p)
  }

  /** The points the claim button advertises: `basePoints! + (bonusChecked ?
      bonusPoints! : 0)` on a timed card, `+basePoints` on a simple one; `None`
      where a field the label reads is missing (the label then shows NaN or
      "undefined"). */
  function ClaimLabelPoints(task: TaskDefinition, bonusChecked: bool): (r: Option<int>)
    requires task.taskType == Simple || task.taskType == TimedBonus
    ensures r.None? <==> task.basePoints.None? || (task.taskType == TimedBonus && bonusChecked && task.bonusPoints.None?)
    ensures r.Some? && task.taskType == TimedBonus ==> r.value == HandleTimedComplete(task, false, bonusChecked).points
    ensures r.Some? && task.taskType == Simple ==> r.value == HandleSimpleComplete(task, false).points
  {
    if task.taskType == TimedBonus then
      if task.basePoints.None? || (bonusChecked && task.bonusPoints.None?) then None
      else Some(task.basePoints.value + (if bonusChecked then task.bonusPoints.value else 0))
    else task.basePoints
  }

  // ---------------------------------------------------------------------------
  // The card's state: the bonus checkbox

  /** The card's `useState` fields that affect what it emits. */
  class CardState {
    var bonusChecked: bool

    constructor ()
      ensures !bonusChecked
    {
      bonusChecked := false;
    }

    /** The bonus checkbox's click handler: it flips the box only while the
        task is not completed, and is a no-op afterwards. */
    method ToggleBonus(isCompleted: bool)
      modifies this
      ensures bonusChecked == if isCompleted then old(bonusChecked) else !old(bonusChecked)
    {
      if !isCompleted {
        bonusChecked := !bonusChecked;
      }
    }

    /** A click on any control: the checkbox toggles the state, every other
        control emits what `OnClick` says from the current state. */
    method Click(p: Props, c: Control) returns (a: Option<Action>)
      modifies this
      ensures a == OnClick(p, old(bonusChecked), c)
      ensures bonusChecked ==
        if c == BonusCheckbox && Enabled(p, c) && !p.isCompleted then !old(bonusChecked) else old(bonusChecked)
    {
      a := OnClick(p, bonusChecked, c);
      if c == BonusCheckbox && Enabled(p, c) {
        ToggleBonus(p.isCompleted);
      }
    }
  }

  // ---------------------------------------------------------------------------
  // Lemmas

  /** The sub-task id scheme is injective in the sub-task's id. */
  lemma SubTaskInstanceIdInjective(task: TaskDefinition, s1: SubTask, s2: SubTask)
    ensures SubTaskInstanceId(task, s1) == SubTaskInstanceId(task, s2) <==> s1.id == s2.id
  {
    var prefix := task.id + "_";
    if SubTaskInstanceId(task, s1) == SubTaskInstanceId(task, s2) {
      assert s1.id == (prefix + s1.id)[|prefix|..];
      assert s2.id == (prefix + s2.id)[|prefix|..];
    }
  }

  /** Whatever a card emits names the instance id its control acts on, so the
      id a revoke names is the id the matching completion recorded. */
  lemma ClickInstanceIdConsistent(p: Props, bonusChecked: bool, c: Control)
    requires OnClick(p, bonusChecked, c).Some?
    ensures OnClick(p, bonusChecked, c).value.instanceId == InstanceIdOf(p.task, c)
  {
  }

  /** A card emits a completion exactly when its control's completion is not
      yet recorded, and a revoke otherwise. */
  lemma ClickCompletesIffNotDone(p: Props, bonusChecked: bool, c: Control)
    requires OnClick(p, bonusChecked, c).Some?
    ensures OnClick(p, bonusChecked, c).value.Complete? <==> !IsDone(p, c)
  {
  }

  /** Complete and revoke alternate: once the emitted id is recorded the same
      click revokes exactly that id, and once it is removed the click
      completes it again. */
  lemma SubTaskToggles(task: TaskDefinition, ids: seq<string>, sub: SubTask)
    ensures var a := HandleSubTaskClick(task, ids, sub);
      && (a.Complete? ==> HandleSubTaskClick(task, ids + [a.instanceId], sub) == Revoke(a.instanceId))
      && (a.Revoke? ==>
            HandleSubTaskClick(task, Without(ids, a.instanceId), sub) ==
            Complete(sub.points, DonePrefix + task.title + " - " + sub.labelText, a.instanceId))
  {
    WithoutRemoves(ids, SubTaskInstanceId(task, sub));
  }

  /** Recording or removing one sub-task's completion never changes what a
      sibling sub-task's button emits. */
  lemma SiblingIndependent(task: TaskDefinition, ids: seq<string>, sub: SubTask, sibling: SubTask)
    requires sub.id != sibling.id
    ensures HandleSubTaskClick(task, ids + [SubTaskInstanceId(task, sibling)], sub) == HandleSubTaskClick(task, ids, sub)
    ensures HandleSubTaskClick(task, Without(ids, SubTaskInstanceId(task, sibling)), sub) == HandleSubTaskClick(task, ids, sub)
  {
    var mine, theirs := SubTaskInstanceId(task, sub), SubTaskInstanceId(task, sibling);
    SubTaskInstanceIdInjective(task, sub, sibling);
    assert mine in ids + [theirs] <==> mine in ids;
    WithoutKeeps(ids, theirs, mine);
  }

  /** Tiers are mutually exclusive for the day: which tier is clicked changes
      only the points claimed, never the id or the complete/revoke choice, and
      once any tier is recorded every tier click revokes the same id. */
  lemma TiersShareOneInstance(task: TaskDefinition, ids: seq<string>, t1: TierOption, t2: TierOption)
    ensures HandleTierClick(task, ids, t1).instanceId == HandleTierClick(task, ids, t2).instanceId
    ensures HandleTierClick(task, ids, t1).Complete? == HandleTierClick(task, ids, t2).Complete?
    ensures var a := HandleTierClick(task, ids, t1);
      a.Complete? ==> HandleTierClick(task, ids + [a.instanceId], t2) == Revoke(a.instanceId)
  {
  }

  /** Once today's tier is recorded every tier button is disabled and the only
      command a tiered card can emit is the revoke of its daily id; before, the
      revoke button is absent and each tier button claims its own points. */
  lemma TieredCardOffers(p: Props, bonusChecked: bool, c: Control)
    requires p.task.taskType == Tiered
    ensures IsTierDone(p) ==>
      && (forall i: nat :: !Enabled(p, TierButton(i)))
      && OnClick(p, bonusChecked, c) == (if c == TierRevokeButton then Some(Revoke(DailyInstanceId(p.task))) else None)
    ensures !IsTierDone(p) ==>
      && !Enabled(p, TierRevokeButton)
      && (c.TierButton? && c.index < |TiersOf(p.task)| ==>
            OnClick(p, bonusChecked, c) == Some(Complete(TiersOf(p.task)[c.index].points,
              DonePrefix + p.task.title + " (" + TiersOf(p.task)[c.index].labelText + ")", DailyInstanceId(p.task))))
  {
  }

  /** What the claim button advertises is what a click awards. */
  lemma ClaimLabelMatchesPoints(task: TaskDefinition, bonusChecked: bool)
    requires task.taskType == Simple || task.taskType == TimedBonus
    requires ClaimLabelPoints(task, bonusChecked).Some?
    ensures OnClick(Props(task, false, []), bonusChecked, MainButton) ==
      Some(Complete(ClaimLabelPoints(task, bonusChecked).value,
        if task.taskType == Simple then DonePrefix + task.title
        else DonePrefix + task.title + (if bonusChecked then BonusSuffix else ""),
        DailyInstanceId(task)))
  {
  }

  // ---------------------------------------------------------------------------
  // The recorded-id list, as the parent would update it

  /** `ids` with every occurrence of `x` removed. */
  function Without(ids: seq<string>, x: string): seq<string>
  {
    if ids == [] then []
    else Without(ids[..|ids| - 1], x) + (if ids[|ids| - 1] == x then [] else [ids[|ids| - 1]])
  }

  lemma {:induction false} WithoutRemoves(ids: seq<string>, x: string)
    ensures x !in Without(ids, x)
  {
    if ids != [] {
      WithoutRemoves(ids[..|ids| - 1], x);
    }
  }

  lemma {:induction false} WithoutKeeps(ids: seq<string>, x: string, y: string)
    requires y != x
    ensures y in Without(ids, x) <==> y in ids
  {
    if ids != [] {
      WithoutKeeps(ids[..|ids| - 1], x, y);
      assert ids == ids[..|ids| - 1] + [ids[|ids| - 1]];
    }
  }
}
