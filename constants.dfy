/** The fixed task catalog (src/constants.ts) and what holds of it. */
module Constants {
  import opened Types
  import opened TaskCard

  function Timed(id: string, title: string, category: Category, base: int, bonus: int, condition: string): TaskDefinition
  {
    TaskDefinition(id, title, category, TimedBonus, Some(base), Some(bonus), Some(condition), None, None)
  }

  function Flat(id: string, title: string, category: Category, base: int): TaskDefinition
  {
    TaskDefinition(id, title, category, Simple, Some(base), None, None, None, None)
  }

  const Chinese: TaskDefinition := Timed("chinese", "语文作业", School, 3, 2, "20:00 前完成")
  const Math: TaskDefinition := Timed("math", "数学作业", School, 3, 2, "20:00 前完成")
  const ReadCheck: TaskDefinition := Flat("read_check", "阅读打卡", School, 5)
  const OralMath: TaskDefinition := Timed("oral_math", "口算", School, 3, 2, "20:00 前完成")

  const EnglishCheck: TaskDefinition := Flat("english_check", "英语打卡", Home, 3)
  const Writing: TaskDefinition := Flat("writing", "写字", Home, 3)
  const Literacy5Min: TaskDefinition := Flat("literacy_5min", "5分钟语文素养", Home, 3)
  const Raz: TaskDefinition := TaskDefinition("raz", "单词 / RAZ", Home, MultiSubtask, None, None, None,
    Some([SubTask("raz_video", "看视频", 2), SubTask("raz_hw", "课后作业", 3)]), None)
  const Xueersi: TaskDefinition := Flat("xueersi", "学而思", Home, 5)
  const Quanling: TaskDefinition := TaskDefinition("quanling", "泉灵", Home, MultiSubtask, None, None, None,
    Some([SubTask("ql_video", "看视频", 5), SubTask("ql_hw", "课后作业", 5)]), None)
  const Piano: TaskDefinition := TaskDefinition("piano", "钢琴练习", Home, Tiered, None, None, None, None,
    Some([TierOption("piano_low", "< 10分钟", 2), TierOption("piano_mid", "10-20 分钟", 4), TierOption("piano_high", "20-30 分钟", 6)]))

  /** `SCHOOL_TASKS` */
  const SchoolTasks: seq<TaskDefinition> := [Chinese, Math, ReadCheck, OralMath]

  /** `HOME_TASKS` */
  const HomeTasks: seq<TaskDefinition> := [EnglishCheck, Writing, Literacy5Min, Raz, Xueersi, Quanling, Piano]

  const Catalog: seq<TaskDefinition> := SchoolTasks + HomeTasks

  /** The fields a task's reward type reads are present, and every point value
      is a positive integer. */
  predicate WellFormed(t: TaskDefinition)
  {
    && (t.basePoints.Some? ==> t.basePoints.value > 0)
    && (t.bonusPoints.Some? ==> t.bonusPoints.value > 0)
    && (t.subTasks.Some? ==> forall s :: s in t.subTasks.value ==> s.points > 0)
    && (t.tiers.Some? ==> forall o :: o in t.tiers.value ==> o.points > 0)
    && match t.taskType
       case Simple => t.basePoints.Some?
       case TimedBonus => t.basePoints.Some? && t.bonusPoints.Some?
       case MultiSubtask => t.subTasks.Some? && |t.subTasks.value| > 0
       case Tiered => t.tiers.Some? && |t.tiers.value| > 0
  }

  predicate DistinctStrings(ids: seq<string>)
  {
    forall i, j :: 0 <= i < j < |ids| ==> ids[i] != ids[j]
  }

  function TaskIds(tasks: seq<TaskDefinition>): (ids: seq<string>)
    ensures |ids| == |tasks| && forall i :: 0 <= i < |tasks| ==> ids[i] == tasks[i].id
  {
    seq(|tasks|, i requires 0 <= i < |tasks| => tasks[i].id)
  }

  function SubTaskIds(subs: seq<SubTask>): (ids: seq<string>)
    ensures |ids| == |subs| && forall i :: 0 <= i < |subs| ==> ids[i] == subs[i].id
  {
    seq(|subs|, i requires 0 <= i < |subs| => subs[i].id)
  }

  /** Every instance id the card scheme can derive for one task: one per
      sub-task for a sub-task task, the single daily id otherwise. */
  function TaskInstanceIds(t: TaskDefinition): (ids: seq<string>)
  {
    if t.taskType == MultiSubtask then
      var subs := SubTasksOf(t);
      seq(|subs|, i requires 0 <= i < |subs| => SubTaskInstanceId(t, subs[i]))
    else [DailyInstanceId(t)]
  }

  function InstanceIds(tasks: seq<TaskDefinition>): seq<string>
  {
    if tasks == [] then [] else InstanceIds(tasks[..|tasks| - 1]) + TaskInstanceIds(tasks[|tasks| - 1])
  }

  // ---------------------------------------------------------------------------
  // Lemmas

  /** `SCHOOL_TASKS`, entry by entry: ids, reward types and points, in list
      order; no entry lists sub-tasks or tiers. */
  lemma SchoolTasksEntries()
    ensures |SchoolTasks| == 4
    ensures TaskIds(SchoolTasks) == ["chinese", "math", "read_check", "oral_math"]
    ensures seq(4, i requires 0 <= i < 4 => SchoolTasks[i].taskType) == [TimedBonus, TimedBonus, Simple, TimedBonus]
    ensures seq(4, i requires 0 <= i < 4 => SchoolTasks[i].basePoints) == [Some(3), Some(3), Some(5), Some(3)]
    ensures seq(4, i requires 0 <= i < 4 => SchoolTasks[i].bonusPoints) == [Some(2), Some(2), None, Some(2)]
    ensures forall t :: t in SchoolTasks ==> t.subTasks.None? && t.tiers.None?
  {
  }

  /** `HOME_TASKS`, entry by entry: ids, reward types, base points and the
      sub-task and tier points, in list order. */
  lemma HomeTasksEntries()
    ensures |HomeTasks| == 7
    ensures TaskIds(HomeTasks) == ["english_check", "writing", "literacy_5min", "raz", "xueersi", "quanling", "piano"]
    ensures seq(7, i requires 0 <= i < 7 => HomeTasks[i].taskType) ==
      [Simple, Simple, Simple, MultiSubtask, Simple, MultiSubtask, Tiered]
    ensures seq(7, i requires 0 <= i < 7 => HomeTasks[i].basePoints) ==
      [Some(3), Some(3), Some(3), None, Some(5), None, None]
    ensures forall t :: t in HomeTasks ==> t.bonusPoints.None?
    ensures SubTaskIds(SubTasksOf(HomeTasks[3])) == ["raz_video", "raz_hw"]
    ensures SubTasksOf(HomeTasks[3])[0].points == 2 && SubTasksOf(HomeTasks[3])[1].points == 3
    ensures SubTaskIds(SubTasksOf(HomeTasks[5])) == ["ql_video", "ql_hw"]
    ensures SubTasksOf(HomeTasks[5])[0].points == 5 && SubTasksOf(HomeTasks[5])[1].points == 5
    ensures |TiersOf(HomeTasks[6])| == 3
    ensures TiersOf(HomeTasks[6])[0].points == 2 && TiersOf(HomeTasks[6])[1].points == 4 && TiersOf(HomeTasks[6])[2].points == 6
  {
  }

  /** Each list carries its own category. */
  lemma CategoriesMatchLists()
    ensures forall t :: t in SchoolTasks ==> t.category == School
    ensures forall t :: t in HomeTasks ==> t.category == Home
  {
  }

  /** Every catalog entry is well formed. */
  lemma CatalogWellFormed()
    ensures forall t :: t in Catalog ==> WellFormed(t)
  {
  }

  /** Task ids are distinct across both lists, and sub-task ids within each task. */
  lemma CatalogIdsDistinct()
    ensures DistinctStrings(TaskIds(Catalog))
    ensures forall t :: t in Catalog ==> DistinctStrings(SubTaskIds(SubTasksOf(t)))
  {
    assert TaskIds(Catalog) == ["chinese", "math", "read_check", "oral_math", "english_check", "writing",
      "literacy_5min", "raz", "xueersi", "quanling", "piano"];
  }

  /** The instance ids of one catalog entry. */
  lemma SubTaskEntryInstanceIds()
    ensures TaskInstanceIds(Raz) == ["raz_raz_video", "raz_raz_hw"]
    ensures TaskInstanceIds(Quanling) == ["quanling_ql_video", "quanling_ql_hw"]
  {
    var razSubs, qlSubs := SubTasksOf(Raz), SubTasksOf(Quanling);
    assert SubTaskInstanceId(Raz, razSubs[0]) == "raz_raz_video";
    assert SubTaskInstanceId(Raz, razSubs[1]) == "raz_raz_hw";
    assert SubTaskInstanceId(Quanling, qlSubs[0]) == "quanling_ql_video";
    assert SubTaskInstanceId(Quanling, qlSubs[1]) == "quanling_ql_hw";
  }

  lemma {:induction false} InstanceIdsConcat(a: seq<TaskDefinition>, b: seq<TaskDefinition>)
    ensures InstanceIds(a + b) == InstanceIds(a) + InstanceIds(b)
    decreases |b|
  {
    if b == [] {
      assert a + b == a;
    } else {
      var b', x := b[..|b| - 1], b[|b| - 1];
      assert (a + b)[..|a + b| - 1] == a + b' && (a + b)[|a + b| - 1] == x;
      assert InstanceIds(a + b) == InstanceIds(a + b') + TaskInstanceIds(x);
      InstanceIdsConcat(a, b');
      assert InstanceIds(b) == InstanceIds(b') + TaskInstanceIds(x);
    }
  }

  lemma SchoolInstanceIds()
    ensures InstanceIds(SchoolTasks) == ["chinese_daily", "math_daily", "read_check_daily", "oral_math_daily"]
  {
    assert DailyInstanceId(Chinese) == "chinese_daily";
    assert DailyInstanceId(Math) == "math_daily";
    assert DailyInstanceId(ReadCheck) == "read_check_daily";
    assert DailyInstanceId(OralMath) == "oral_math_daily";
    assert SchoolTasks == [Chinese, Math, ReadCheck, OralMath];
    assert SchoolTasks[..1][..0] == SchoolTasks[..0];
    assert InstanceIds(SchoolTasks[..1]) == InstanceIds(SchoolTasks[..0]) + TaskInstanceIds(Chinese);
    assert SchoolTasks[..2][..1] == SchoolTasks[..1];
    assert InstanceIds(SchoolTasks[..2]) == InstanceIds(SchoolTasks[..1]) + TaskInstanceIds(Math);
    assert SchoolTasks[..3][..2] == SchoolTasks[..2];
    assert InstanceIds(SchoolTasks[..3]) == InstanceIds(SchoolTasks[..2]) + TaskInstanceIds(ReadCheck);
    assert SchoolTasks[..4][..3] == SchoolTasks[..3];
    assert InstanceIds(SchoolTasks[..4]) == InstanceIds(SchoolTasks[..3]) + TaskInstanceIds(OralMath);
    assert SchoolTasks[..4] == SchoolTasks;
  }

  const HomeFlatTasks: seq<TaskDefinition> := [EnglishCheck, Writing, Literacy5Min]
  const HomeOtherTasks: seq<TaskDefinition> := [Raz, Xueersi, Quanling, Piano]

  lemma HomeFlatInstanceIds()
    ensures InstanceIds(HomeFlatTasks) == ["english_check_daily", "writing_daily", "literacy_5min_daily"]
  {
    assert DailyInstanceId(EnglishCheck) == "english_check_daily";
    assert DailyInstanceId(Writing) == "writing_daily";
    assert DailyInstanceId(Literacy5Min) == "literacy_5min_daily";
    assert HomeFlatTasks[..1][..0] == HomeFlatTasks[..0];
    assert InstanceIds(HomeFlatTasks[..1]) == InstanceIds(HomeFlatTasks[..0]) + TaskInstanceIds(EnglishCheck);
    assert HomeFlatTasks[..2][..1] == HomeFlatTasks[..1];
    assert InstanceIds(HomeFlatTasks[..2]) == InstanceIds(HomeFlatTasks[..1]) + TaskInstanceIds(Writing);
    assert HomeFlatTasks[..3][..2] == HomeFlatTasks[..2];
    assert InstanceIds(HomeFlatTasks[..3]) == InstanceIds(HomeFlatTasks[..2]) + TaskInstanceIds(Literacy5Min);
    assert HomeFlatTasks[..3] == HomeFlatTasks;
  }

  lemma HomeOtherInstanceIds()
    ensures InstanceIds(HomeOtherTasks) == ["raz_raz_video", "raz_raz_hw", "xueersi_daily", "quanling_ql_video", "quanling_ql_hw", "piano_daily"]
  {
    SubTaskEntryInstanceIds();
    assert DailyInstanceId(Xueersi) == "xueersi_daily";
    assert DailyInstanceId(Piano) == "piano_daily";
    assert HomeOtherTasks[..1][..0] == HomeOtherTasks[..0];
    assert InstanceIds(HomeOtherTasks[..1]) == InstanceIds(HomeOtherTasks[..0]) + TaskInstanceIds(Raz);
    assert HomeOtherTasks[..2][..1] == HomeOtherTasks[..1];
    assert InstanceIds(HomeOtherTasks[..2]) == InstanceIds(HomeOtherTasks[..1]) + TaskInstanceIds(Xueersi);
    assert HomeOtherTasks[..3][..2] == HomeOtherTasks[..2];
    assert InstanceIds(HomeOtherTasks[..3]) == InstanceIds(HomeOtherTasks[..2]) + TaskInstanceIds(Quanling);
    assert HomeOtherTasks[..4][..3] == HomeOtherTasks[..3];
    assert InstanceIds(HomeOtherTasks[..4]) == InstanceIds(HomeOtherTasks[..3]) + TaskInstanceIds(Piano);
    assert HomeOtherTasks[..4] == HomeOtherTasks;
  }

  lemma HomeInstanceIds()
    ensures InstanceIds(HomeTasks) == ["english_check_daily", "writing_daily", "literacy_5min_daily", "raz_raz_video", "raz_raz_hw", "xueersi_daily", "quanling_ql_video", "quanling_ql_hw", "piano_daily"]
  {
    assert HomeTasks == HomeFlatTasks + HomeOtherTasks;
    InstanceIdsConcat(HomeFlatTasks, HomeOtherTasks);
    HomeFlatInstanceIds();
    HomeOtherInstanceIds();
  }

  /** The instance ids the card scheme derives for the catalog. */
  lemma CatalogInstanceIds()
    ensures InstanceIds(Catalog) == ["chinese_daily", "math_daily", "read_check_daily", "oral_math_daily", "english_check_daily", "writing_daily", "literacy_5min_daily", "raz_raz_video", "raz_raz_hw", "xueersi_daily", "quanling_ql_video", "quanling_ql_hw", "piano_daily"]
  {
    SchoolInstanceIds();
    HomeInstanceIds();
    InstanceIdsConcat(SchoolTasks, HomeTasks);
  }

  /** No two completions in the catalog share an instance id. */
  lemma CatalogInstanceIdsDistinct()
    ensures DistinctStrings(InstanceIds(Catalog))
  {
    CatalogInstanceIds();
  }

  /** Distinct task ids and no sub-task id equal to "daily" do not make the
      scheme collision-free in general: the separator "_" may occur inside
      ids.  The catalog avoids this only by its choice of ids. */
  lemma SchemeNeedsCatalogIds()
    ensures var a := Flat("a_b", "A", Home, 1);
      var b := TaskDefinition("a", "B", Home, MultiSubtask, None, None, None, Some([SubTask("b_daily", "x", 1)]), None);
      && a.id != b.id && "b_daily" != "daily"
      && DailyInstanceId(a) == SubTaskInstanceId(b, SubTask("b_daily", "x", 1))
  {
  }

  // ---------------------------------------------------------------------------
  // Scenarios on the catalog

  /** Claiming "chinese" with the bonus awards 3 + 2 = 5 under "chinese_daily";
      once recorded, the same button revokes that id. */
  lemma ChineseWithBonus()
    ensures OnClick(Props(Chinese, false, []), true, MainButton) ==
      Some(Complete(5, "完成 语文作业 (额外奖励)", "chinese_daily"))
    ensures OnClick(Props(Chinese, true, []), true, MainButton) == Some(Revoke("chinese_daily"))
    ensures OnClick(Props(Chinese, false, []), false, MainButton) ==
      Some(Complete(3, "完成 语文作业", "chinese_daily"))
  {
    assert OnClick(Props(Chinese, false, []), true, MainButton) == Some(HandleTimedComplete(Chinese, false, true));
    assert HandleTimedComplete(Chinese, false, true) == Complete(5, "完成 语文作业 (额外奖励)", "chinese_daily");
    assert OnClick(Props(Chinese, false, []), false, MainButton) == Some(HandleTimedComplete(Chinese, false, false));
    assert HandleTimedComplete(Chinese, false, false) == Complete(3, "完成 语文作业", "chinese_daily");
  }

  /** Choosing the middle piano tier claims 4 points; afterwards no tier can
      be chosen and only the revoke is offered. */
  lemma PianoTierOnceADay(c: Control)
    ensures OnClick(Props(Piano, false, []), false, TierButton(1)) ==
      Some(Complete(4, "完成 钢琴练习 (10-20 分钟)", "piano_daily"))
    ensures OnClick(Props(Piano, false, ["piano_daily"]), false, c) ==
      if c == TierRevokeButton then Some(Revoke("piano_daily")) else None
  {
    var tier := TierOption("piano_mid", "10-20 分钟", 4);
    assert TiersOf(Piano)[1] == tier;
    assert OnClick(Props(Piano, false, []), false, TierButton(1)) == Some(HandleTierClick(Piano, [], tier));
    assert HandleTierClick(Piano, [], tier) == Complete(4, "完成 钢琴练习 (10-20 分钟)", "piano_daily");
    assert DailyInstanceId(Piano) == "piano_daily";
    TieredCardOffers(Props(Piano, false, ["piano_daily"]), false, c);
  }

  /** The RAZ video button claims the video's 2 points under its own id. */
  lemma RazVideoClaim()
    ensures OnClick(Props(Raz, false, []), false, SubTaskButton(0)) ==
      Some(Complete(2, "完成 单词 / RAZ - 看视频", "raz_raz_video"))
  {
    var video := SubTask("raz_video", "看视频", 2);
    assert SubTasksOf(Raz)[0] == video;
    assert SubTaskInstanceId(Raz, video) == "raz_raz_video";
    assert OnClick(Props(Raz, false, []), false, SubTaskButton(0)) == Some(HandleSubTaskClick(Raz, [], video));
    assert HandleSubTaskClick(Raz, [], video) == Complete(2, "完成 单词 / RAZ - 看视频", "raz_raz_video");
  }

  /** Once the RAZ video is recorded, the homework is still claimable and the
      video button revokes the video. */
  lemma RazSubTasksIndependent()
    ensures OnClick(Props(Raz, false, ["raz_raz_video"]), false, SubTaskButton(1)) ==
      Some(Complete(3, "完成 单词 / RAZ - 课后作业", "raz_raz_hw"))
    ensures OnClick(Props(Raz, false, ["raz_raz_video"]), false, SubTaskButton(0)) == Some(Revoke("raz_raz_video"))
  {
    var video, hw := SubTask("raz_video", "看视频", 2), SubTask("raz_hw", "课后作业", 3);
    assert SubTasksOf(Raz) == [video, hw];
    assert SubTaskInstanceId(Raz, video) == "raz_raz_video";
    assert SubTaskInstanceId(Raz, hw) == "raz_raz_hw";
    assert OnClick(Props(Raz, false, ["raz_raz_video"]), false, SubTaskButton(1)) ==
      Some(HandleSubTaskClick(Raz, ["raz_raz_video"], hw));
    assert HandleSubTaskClick(Raz, ["raz_raz_video"], hw) == Complete(3, "完成 单词 / RAZ - 课后作业", "raz_raz_hw");
    assert OnClick(Props(Raz, false, ["raz_raz_video"]), false, SubTaskButton(0)) ==
      Some(HandleSubTaskClick(Raz, ["raz_raz_video"], video));
  }
}
