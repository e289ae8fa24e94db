/** The information API of `mobile_world.core.api.info`: data derived from a
    registry snapshot (task details, filtered and sorted task lists, task
    statistics, the app to tasks inversion) and from the agent table.

    The registry is given as the `TaskIndex` a scan produced; the agent
    table, whose contents live outside this model, is a parameter. */
module Info {
  import opened Outcomes
  import opened Text
  import opened Seqs
  import opened Sorting
  import opened Registry

  // ------------------------------------------------------------- entities

  datatype TaskInfo = TaskInfo(name: string, goal: Option<string>, tags: seq<string>, appNames: seq<string>) {
    predicate IsCrossApp() {
      |appNames| > 1
    }

    predicate IsSingleApp() {
      |appNames| == 1
    }
  }

  /** `TaskInfo(name=...)`: every other field at its default. */
  function BareInfo(name: string): TaskInfo {
    TaskInfo(name, None, [], [])
  }

  /** An entry of the agent table: the class's `__name__` and the optional
      `needs_api_key` setting. */
  datatype AgentConfig = AgentConfig(className: string, needsApiKey: Option<bool>)

  /** The agent table, a dict from agent type to its configuration. */
  datatype AgentTable = AgentTable(keys: seq<string>, configs: map<string, AgentConfig>) {
    ghost predicate Valid() {
      Distinct(keys) && forall k :: k in configs <==> k in keys
    }
  }

  datatype AgentInfo = AgentInfo(agentType: string, className: string, needsApiKey: bool)

  datatype AppInfo = AppInfo(name: string, tasks: seq<string>, singleAppTaskCount: nat, crossAppTaskCount: nat)

  datatype TaskStatistics = TaskStatistics(
    totalTasks: nat,
    singleAppTasks: nat,
    crossAppTasks: nat,
    tasksWithoutApps: nat,
    tagCounts: map<string, nat>)

  /** A task is cross-app, single-app or app-less, and exactly one of these
      (info.py:25-33). */
  lemma AppClassification(t: TaskInfo)
    ensures !(t.IsCrossApp() && t.IsSingleApp())
    ensures !t.IsCrossApp() && !t.IsSingleApp() <==> t.appNames == []
  {
  }

  // -------------------------------------------------------- name filters

  /** `if name_filter:` fails for None and for "". */
  predicate NoFilter(filter: Option<string>) {
    filter.None? || filter.value == ""
  }

  /** `name` passes the filter: the filter is falsy or occurs in `name`,
      ignoring case. */
  predicate Matches(filter: Option<string>, name: string) {
    NoFilter(filter) || Contains(Lower(name), Lower(filter.value))
  }

  /** `needle in name.lower()`, for an already lowercased needle. */
  function NameMatcher(needle: string): string -> bool {
    name => Contains(Lower(name), needle)
  }

  /** `[n for n in names if filter.lower() in n.lower()]`, or every name for
      a falsy filter; the comprehension shared by the listing functions. */
  function SelectNames(names: seq<string>, filter: Option<string>): (r: seq<string>)
    ensures NoFilter(filter) ==> r == names
    ensures !NoFilter(filter) ==> r == Filter(names, NameMatcher(Lower(filter.value)))
  {
    if NoFilter(filter) then names else Filter(names, NameMatcher(Lower(filter.value)))
  }

  /** The selection holds exactly the names matching the filter
      case-insensitively, in their original order and without repeats when
      the names have none. */
  lemma SelectNamesSpec(names: seq<string>, filter: Option<string>)
    ensures forall n :: n in SelectNames(names, filter) <==> n in names && Matches(filter, n)
    ensures Distinct(names) ==> Distinct(SelectNames(names, filter))
  {
    if !NoFilter(filter) {
      var p := NameMatcher(Lower(filter.value));
      var r := Filter(names, p);
      forall n ensures n in r <==> n in names && p(n) {
        if n in names {
          var i :| 0 <= i < |names| && names[i] == n;
        }
        if n in r {
          var i :| 0 <= i < |r| && r[i] == n;
        }
      }
      if Distinct(names) {
        FilterDistinct(names, p);
      }
    }
  }

  // -------------------------------------------------------- get_task_info

  /** `info` reports `task`: its name, its goal (None when empty), its tags
      in sorted order and its app names. */
  ghost predicate Describes(info: TaskInfo, task: TaskInstance) {
    && info.name == task.name
    && (info.goal.None? <==> task.goal == "")
    && (info.goal.Some? ==> info.goal.value == task.goal)
    && multiset(info.tags) == multiset(task.tags)
    && (forall i, j :: 0 <= i < j < |info.tags| ==> StrLe(info.tags[i], info.tags[j]))
    && info.appNames == task.appNames
  }

  /** `get_task_info`: the registry's `KeyError` for an unknown name, the
      failure of a raising attribute read, otherwise the instance's name,
      goal (None when empty), sorted tags and app names. */
  function GetTaskInfo(name: string, idx: TaskIndex): (r: Result<TaskInfo>)
    ensures name !in idx.entries ==> r == Err(KeyError(name))
    ensures name in idx.entries ==> (r.Ok? <==> idx.entries[name].attributesReadable)
    ensures r.Ok? ==> Describes(r.value, idx.entries[name])
  {
    if name !in idx.entries then Err(KeyError(name))
    else
      var task := idx.entries[name];
      if !task.attributesReadable then Err(AttributeError("name"))
      else Ok(TaskInfo(task.name, if task.goal == "" then None else Some(task.goal),
                       SortStrings(task.tags), task.appNames))
  }

  /** What `list_tasks` appends for one name: the task's info, or a bare
      record when looking it up raised. */
  function InfoOrBare(idx: TaskIndex, name: string): TaskInfo {
    match GetTaskInfo(name, idx)
    case Ok(info) => info
    case Err(_) => BareInfo(name)
  }

  function InfosOf(idx: TaskIndex, names: seq<string>): (r: seq<TaskInfo>)
    ensures |r| == |names|
    ensures forall i :: 0 <= i < |names| ==> r[i] == InfoOrBare(idx, names[i])
    decreases |names|
  {
    if names == [] then []
    else InfosOf(idx, names[..|names| - 1]) + [InfoOrBare(idx, names[|names| - 1])]
  }

  // ----------------------------------------------------------- list_tasks

  /** The sort key of `list_tasks`: the lowercased first app name ("" when
      there is none), then the lowercased task name. */
  function TaskSortKey(t: TaskInfo): Key {
    Key(if t.appNames != [] then Lower(t.appNames[0]) else "", Lower(t.name))
  }

  /** The specification of `list_tasks`. */
  ghost function ListedTasks(idx: TaskIndex, filter: Option<string>): seq<TaskInfo> {
    SortBy(InfosOf(idx, SelectNames(idx.keys, filter)), TaskSortKey)
  }

  /** `list_tasks`: select names, look each one up, then sort. */
  method ListTasks(idx: TaskIndex, filter: Option<string>) returns (tasks: seq<TaskInfo>)
    ensures tasks == ListedTasks(idx, filter)
  {
    var taskNames := SelectNames(idx.keys, filter);
    tasks := DescribeTasks(idx, taskNames);
    tasks := SortBy(tasks, TaskSortKey);
  }

  /** The loop of `list_tasks`: a failed lookup becomes a bare record. */
  method DescribeTasks(idx: TaskIndex, taskNames: seq<string>) returns (tasks: seq<TaskInfo>)
    ensures tasks == InfosOf(idx, taskNames)
  {
    tasks := [];
    for i := 0 to |taskNames|
      invariant tasks == InfosOf(idx, taskNames[..i])
    {
      assert taskNames[..i + 1][..i] == taskNames[..i];
      var info := GetTaskInfo(taskNames[i], idx);
      var task := if info.Ok? then info.value else BareInfo(taskNames[i]);
      tasks := tasks + [task];
    }
    assert taskNames[..|taskNames|] == taskNames;
  }

  /** `list_tasks` lists every selected registry name once: as its info, or
      as a bare record when the lookup fails; it lists nothing else and is
      ordered by the sort key. */
  lemma ListedTasksSpec(idx: TaskIndex, filter: Option<string>)
    ensures SortedBy(ListedTasks(idx, filter), TaskSortKey)
    ensures |ListedTasks(idx, filter)| == |SelectNames(idx.keys, filter)|
    ensures forall n :: n in SelectNames(idx.keys, filter) ==> InfoOrBare(idx, n) in ListedTasks(idx, filter)
    ensures forall t :: t in ListedTasks(idx, filter) ==>
      exists n :: n in SelectNames(idx.keys, filter) && t == InfoOrBare(idx, n)
  {
    var names := SelectNames(idx.keys, filter);
    var infos := InfosOf(idx, names);
    PermutationMembers(ListedTasks(idx, filter), infos);
    forall n | n in names ensures InfoOrBare(idx, n) in infos {
      var i :| 0 <= i < |names| && names[i] == n;
      assert infos[i] == InfoOrBare(idx, n);
    }
    forall t | t in infos ensures exists n :: n in names && t == InfoOrBare(idx, n) {
      var i :| 0 <= i < |infos| && infos[i] == t;
      assert names[i] in names;
    }
  }

  // ------------------------------------------------- get_task_statistics

  /** `m.get(k, 0)`. */
  function Count(m: map<string, nat>, k: string): nat {
    if k in m then m[k] else 0
  }

  /** `for tag in tags: counts[tag] = counts.get(tag, 0) + 1`. */
  function AddTags(m: map<string, nat>, tags: seq<string>): map<string, nat>
    decreases |tags|
  {
    if tags == [] then m
    else
      var prev := AddTags(m, tags[..|tags| - 1]);
      var tag := tags[|tags| - 1];
      prev[tag := Count(prev, tag) + 1]
  }

  /** Counting a run of tags one tag further. */
  lemma AddTagsStep(m: map<string, nat>, tags: seq<string>, j: nat)
    requires j < |tags|
    ensures AddTags(m, tags[..j + 1]) == AddTags(m, tags[..j])[tags[j] := Count(AddTags(m, tags[..j]), tags[j]) + 1]
  {
    assert tags[..j + 1][..j] == tags[..j];
  }

  /** The tag counts of a run of tasks. */
  function TagCounts(tasks: seq<TaskInfo>): map<string, nat>
    decreases |tasks|
  {
    if tasks == [] then map[]
    else AddTags(TagCounts(tasks[..|tasks| - 1]), tasks[|tasks| - 1].tags)
  }

  /** How many times `tag` occurs among the tags of `tasks`. */
  function Occurrences(tasks: seq<TaskInfo>, tag: string): nat
    decreases |tasks|
  {
    if tasks == [] then 0
    else Occurrences(tasks[..|tasks| - 1], tag) + multiset(tasks[|tasks| - 1].tags)[tag]
  }

  function HasTag(tag: string): TaskInfo -> bool {
    (t: TaskInfo) => tag in t.tags
  }

  function SingleApp(): TaskInfo -> bool {
    (t: TaskInfo) => t.IsSingleApp()
  }

  function CrossApp(): TaskInfo -> bool {
    (t: TaskInfo) => t.IsCrossApp()
  }

  function WithoutApps(): TaskInfo -> bool {
    (t: TaskInfo) => t.appNames == []
  }

  /** The specification of `get_task_statistics`, over the tasks listed. */
  ghost function StatisticsOf(tasks: seq<TaskInfo>): TaskStatistics {
    TaskStatistics(|tasks|, CountIf(tasks, SingleApp()), CountIf(tasks, CrossApp()),
                   CountIf(tasks, WithoutApps()), TagCounts(tasks))
  }

  /** Counting a run of tasks one task further. */
  lemma CountStep(tasks: seq<TaskInfo>, i: nat, p: TaskInfo -> bool)
    requires i < |tasks|
    ensures CountIf(tasks[..i + 1], p) == CountIf(tasks[..i], p) + (if p(tasks[i]) then 1 else 0)
  {
    assert tasks[..i + 1][..i] == tasks[..i];
  }

  /** `get_task_statistics`: lists the tasks, then counts them by app
      classification and counts their tags. */
  method GetTaskStatistics(idx: TaskIndex, filter: Option<string>) returns (stats: TaskStatistics)
    ensures stats == StatisticsOf(ListedTasks(idx, filter))
  {
    var tasks := ListTasks(idx, filter);
    stats := CountStatistics(tasks);
  }

  /** The counting loop of `get_task_statistics` over the listed tasks. */
  method CountStatistics(tasks: seq<TaskInfo>) returns (stats: TaskStatistics)
    ensures stats == StatisticsOf(tasks)
  {
    var single, cross, without := 0, 0, 0;
    var tagCounts: map<string, nat> := map[];
    for i := 0 to |tasks|
      invariant single == CountIf(tasks[..i], SingleApp())
      invariant cross == CountIf(tasks[..i], CrossApp())
      invariant without == CountIf(tasks[..i], WithoutApps())
      invariant tagCounts == TagCounts(tasks[..i])
    {
      var task := tasks[i];
      CountStep(tasks, i, SingleApp());
      CountStep(tasks, i, CrossApp());
      CountStep(tasks, i, WithoutApps());
      if task.IsSingleApp() {
        single := single + 1;
      } else if task.IsCrossApp() {
        cross := cross + 1;
      } else {
        without := without + 1;
      }
      tagCounts := CountTags(tagCounts, task.tags);
      assert tasks[..i + 1][..i] == tasks[..i];
    }
    assert tasks[..|tasks|] == tasks;
    stats := TaskStatistics(|tasks|, single, cross, without, tagCounts);
  }

  /** The inner loop of `get_task_statistics`: one more count for each tag. */
  method CountTags(counts: map<string, nat>, tags: seq<string>) returns (r: map<string, nat>)
    ensures r == AddTags(counts, tags)
  {
    r := counts;
    for j := 0 to |tags|
      invariant r == AddTags(counts, tags[..j])
    {
      AddTagsStep(counts, tags, j);
      var tag := tags[j];
      r := r[tag := Count(r, tag) + 1];
    }
    assert tags[..|tags|] == tags;
  }

  /** Every listed task is counted in exactly one of the three classes. */
  lemma {:induction false} StatisticsAddUp(tasks: seq<TaskInfo>)
    ensures var s := StatisticsOf(tasks);
      s.singleAppTasks + s.crossAppTasks + s.tasksWithoutApps == s.totalTasks
    decreases |tasks|
  {
    if tasks != [] {
      var init := tasks[..|tasks| - 1];
      StatisticsAddUp(init);
      AppClassification(tasks[|tasks| - 1]);
    }
  }

  /** Adding a run of tags counts each of its occurrences. */
  lemma {:induction false} AddTagsSpec(m: map<string, nat>, tags: seq<string>, tag: string)
    ensures tag in AddTags(m, tags) <==> tag in m || tag in tags
    ensures Count(AddTags(m, tags), tag) == Count(m, tag) + multiset(tags)[tag]
    decreases |tags|
  {
    if tags != [] {
      var init := tags[..|tags| - 1];
      AddTagsSpec(m, init, tag);
      assert tags == init + [tags[|tags| - 1]];
    }
  }

  /** A tag is counted exactly when some listed task carries it, and its
      count is the number of times it occurs among the listed tasks' tags. */
  lemma {:induction false} TagCountsSpec(tasks: seq<TaskInfo>, tag: string)
    ensures tag in TagCounts(tasks) <==> exists i :: 0 <= i < |tasks| && tag in tasks[i].tags
    ensures Count(TagCounts(tasks), tag) == Occurrences(tasks, tag)
    decreases |tasks|
  {
    if tasks != [] {
      var init := tasks[..|tasks| - 1];
      var last := tasks[|tasks| - 1];
      TagCountsSpec(init, tag);
      AddTagsSpec(TagCounts(init), last.tags, tag);
      if tag in TagCounts(tasks) && tag !in last.tags {
        var i :| 0 <= i < |init| && tag in init[i].tags;
        assert tasks[i] == init[i];
      }
      if exists i :: 0 <= i < |tasks| && tag in tasks[i].tags {
        var i :| 0 <= i < |tasks| && tag in tasks[i].tags;
        if i < |init| {
          assert init[i] == tasks[i];
        }
      }
    }
  }

  /** When no task repeats a tag (the tags are a set), a tag's occurrences
      are the number of tasks that carry it. */
  lemma {:induction false} OccurrencesCountTasks(tasks: seq<TaskInfo>, tag: string)
    requires forall i :: 0 <= i < |tasks| ==> Distinct(tasks[i].tags)
    ensures Occurrences(tasks, tag) == CountIf(tasks, HasTag(tag))
    decreases |tasks|
  {
    if tasks != [] {
      var init := tasks[..|tasks| - 1];
      var last := tasks[|tasks| - 1];
      OccurrencesCountTasks(init, tag);
      DistinctAtMostOnce(last.tags, tag);
    }
  }

  /** A registry whose tasks have no repeated tag (as for every set-valued
      `task_tags`) lists infos without repeated tags. */
  lemma InfoTagsDistinct(idx: TaskIndex, name: string)
    requires forall n :: n in idx.entries ==> Distinct(idx.entries[n].tags)
    ensures Distinct(InfoOrBare(idx, name).tags)
  {
    match GetTaskInfo(name, idx)
    case Ok(info) => DistinctPermutation(info.tags, idx.entries[name].tags);
    case Err(_) =>
  }

  /** `tag_counts[t]` is the number of listed tasks whose tags contain `t`,
      when no task repeats a tag. */
  lemma TagCountIsTaskCount(idx: TaskIndex, filter: Option<string>, tag: string)
    requires forall n :: n in idx.entries ==> Distinct(idx.entries[n].tags)
    ensures Count(StatisticsOf(ListedTasks(idx, filter)).tagCounts, tag) == CountIf(ListedTasks(idx, filter), HasTag(tag))
  {
    var listed := ListedTasks(idx, filter);
    var infos := InfosOf(idx, SelectNames(idx.keys, filter));
    forall i | 0 <= i < |listed|
      ensures Distinct(listed[i].tags)
    {
      assert listed[i] in multiset(infos);
      var k :| 0 <= k < |infos| && infos[k] == listed[i];
      InfoTagsDistinct(idx, SelectNames(idx.keys, filter)[k]);
    }
    TagCountsSpec(listed, tag);
    OccurrencesCountTasks(listed, tag);
  }

  /** The totals of `get_task_statistics` add up to the number of registry
      names the filter selects. */
  lemma StatisticsTotals(idx: TaskIndex, filter: Option<string>)
    ensures var s := StatisticsOf(ListedTasks(idx, filter));
      && s.totalTasks == |SelectNames(idx.keys, filter)|
      && s.singleAppTasks + s.crossAppTasks + s.tasksWithoutApps == s.totalTasks
  {
    ListedTasksSpec(idx, filter);
    StatisticsAddUp(ListedTasks(idx, filter));
  }

  // --------------------------------------------- list_agents, get_agent_info

  function AgentInfoOf(agentType: string, config: AgentConfig): AgentInfo {
    AgentInfo(agentType, config.className, config.needsApiKey.GetOr(false))
  }

  /** `get_agent_info`: the entry under exactly `agentType`, whose
      `needs_api_key` defaults to false, or `KeyError`. */
  function GetAgentInfo(agentType: string, table: AgentTable): (r: Result<AgentInfo>)
    ensures r.Ok? <==> agentType in table.configs
    ensures r.Err? ==> r.error == KeyError(agentType)
    ensures r.Ok? ==> r.value.agentType == agentType && r.value.className == table.configs[agentType].className
    ensures r.Ok? ==> (r.value.needsApiKey <==> table.configs[agentType].needsApiKey == Some(true))
  {
    if agentType !in table.configs then Err(KeyError(agentType))
    else Ok(AgentInfoOf(agentType, table.configs[agentType]))
  }

  /** The agent records for a run of agent types from the table. */
  function AgentsOf(table: AgentTable, types: seq<string>): (r: seq<AgentInfo>)
    requires forall i :: 0 <= i < |types| ==> types[i] in table.configs
    ensures |r| == |types|
    ensures forall i :: 0 <= i < |types| ==> r[i] == AgentInfoOf(types[i], table.configs[types[i]])
    decreases |types|
  {
    if types == [] then []
    else
      var t := types[|types| - 1];
      AgentsOf(table, types[..|types| - 1]) + [AgentInfoOf(t, table.configs[t])]
  }

  /** The agent types `list_agents` reports, in order. */
  ghost function ListedAgentTypes(table: AgentTable, filter: Option<string>): seq<string> {
    SortStrings(SelectNames(table.keys, filter))
  }

  /** The selected agent types are keys of a well-formed table. */
  lemma ListedAgentTypesKnown(table: AgentTable, filter: Option<string>)
    requires table.Valid()
    ensures forall i :: 0 <= i < |ListedAgentTypes(table, filter)| ==> ListedAgentTypes(table, filter)[i] in table.configs
  {
    SelectNamesSpec(table.keys, filter);
    PermutationMembers(ListedAgentTypes(table, filter), SelectNames(table.keys, filter));
  }

  /** The specification of `list_agents`. */
  ghost function ListedAgents(table: AgentTable, filter: Option<string>): seq<AgentInfo>
    requires table.Valid()
  {
    ListedAgentTypesKnown(table, filter);
    AgentsOf(table, ListedAgentTypes(table, filter))
  }

  /** `list_agents`: select the agent types, sort them, and describe each. */
  method ListAgents(table: AgentTable, filter: Option<string>) returns (agents: seq<AgentInfo>)
    requires table.Valid()
    ensures agents == ListedAgents(table, filter)
  {
    var agentTypes := SelectNames(table.keys, filter);
    var sortedTypes := SortStrings(agentTypes);
    assert sortedTypes == ListedAgentTypes(table, filter);
    ListedAgentTypesKnown(table, filter);
    agents := DescribeAgents(table, sortedTypes);
  }

  /** The loop of `list_agents` over the sorted agent types. */
  method DescribeAgents(table: AgentTable, types: seq<string>) returns (agents: seq<AgentInfo>)
    requires forall i :: 0 <= i < |types| ==> types[i] in table.configs
    ensures agents == AgentsOf(table, types)
  {
    agents := [];
    for i := 0 to |types|
      invariant agents == AgentsOf(table, types[..i])
    {
      assert types[..i + 1][..i] == types[..i];
      var agentType := types[i];
      var config := table.configs[agentType];
      agents := agents + [AgentInfoOf(agentType, config)];
    }
    assert types[..|types|] == types;
  }

  lemma ListedAgentsAreTyped(table: AgentTable, filter: Option<string>)
    requires table.Valid()
    ensures |ListedAgents(table, filter)| == |ListedAgentTypes(table, filter)|
    ensures forall i :: 0 <= i < |ListedAgents(table, filter)| ==>
      ListedAgents(table, filter)[i].agentType == ListedAgentTypes(table, filter)[i]
  {
  }

  /** `list_agents` reports exactly the agent types the filter selects. */
  lemma ListedAgentsMembers(table: AgentTable, filter: Option<string>, a: string)
    requires table.Valid()
    ensures |ListedAgents(table, filter)| == |SelectNames(table.keys, filter)|
    ensures a in SelectNames(table.keys, filter) <==>
      exists i :: 0 <= i < |ListedAgents(table, filter)| && ListedAgents(table, filter)[i].agentType == a
  {
    var types := ListedAgentTypes(table, filter);
    PermutationMembers(types, SelectNames(table.keys, filter));
    ListedAgentsAreTyped(table, filter);
    if a in types {
      var i :| 0 <= i < |types| && types[i] == a;
      assert ListedAgents(table, filter)[i].agentType == a;
    }
  }

  /** Each agent `list_agents` reports carries the information
      `get_agent_info` gives for its type. */
  lemma ListedAgentsAgree(table: AgentTable, filter: Option<string>)
    requires table.Valid()
    ensures forall i :: 0 <= i < |ListedAgents(table, filter)| ==>
      GetAgentInfo(ListedAgents(table, filter)[i].agentType, table) == Ok(ListedAgents(table, filter)[i])
  {
    var types := ListedAgentTypes(table, filter);
    ListedAgentTypesKnown(table, filter);
    var r := ListedAgents(table, filter);
    forall i | 0 <= i < |r| ensures GetAgentInfo(r[i].agentType, table) == Ok(r[i]) {
      assert r[i] == AgentInfoOf(types[i], table.configs[types[i]]);
    }
  }

  /** `list_agents` reports the agent types in sorted order, each once. */
  lemma ListedAgentsSorted(table: AgentTable, filter: Option<string>)
    requires table.Valid()
    ensures forall i, j :: 0 <= i < j < |ListedAgents(table, filter)| ==>
      StrLe(ListedAgents(table, filter)[i].agentType, ListedAgents(table, filter)[j].agentType)
      && ListedAgents(table, filter)[i].agentType != ListedAgents(table, filter)[j].agentType
  {
    var selected := SelectNames(table.keys, filter);
    var types := ListedAgentTypes(table, filter);
    SelectNamesSpec(table.keys, filter);
    DistinctPermutation(types, selected);
    var r := ListedAgents(table, filter);
    assert forall i :: 0 <= i < |r| ==> r[i].agentType == types[i];
  }

  // ------------------------------------------------ list_apps, get_app_info

  /** The `app_to_tasks` dict: app names in insertion order and, for each,
      the names of the tasks that use it. */
  datatype AppIndex = AppIndex(apps: seq<string>, tasksOf: map<string, seq<string>>) {
    ghost predicate Valid() {
      Distinct(apps) && forall a :: a in tasksOf <==> a in apps
    }
  }

  const NoApps := AppIndex([], map[])

  /** `app_to_tasks.get(app, [])`. */
  function TasksOf(ai: AppIndex, app: string): seq<string> {
    if app in ai.tasksOf then ai.tasksOf[app] else []
  }

  /** The app names of a registered task, empty for an unknown name. */
  function AppNamesOf(idx: TaskIndex, name: string): seq<string> {
    if name in idx.entries then idx.entries[name].appNames else []
  }

  /** Recording one task under each of its apps, creating missing keys at
      the end of the dict. */
  function AddTask(ai: AppIndex, name: string, apps: seq<string>): AppIndex
    decreases |apps|
  {
    if apps == [] then ai
    else
      var prev := AddTask(ai, name, apps[..|apps| - 1]);
      var app := apps[|apps| - 1];
      var keyed := if app in prev.tasksOf then prev else AppIndex(prev.apps + [app], prev.tasksOf[app := []]);
      AppIndex(keyed.apps, keyed.tasksOf[app := keyed.tasksOf[app] + [name]])
  }

  /** The app to tasks inversion of a run of registry names. */
  function CollectApps(idx: TaskIndex, names: seq<string>): AppIndex
    decreases |names|
  {
    if names == [] then NoApps
    else AddTask(CollectApps(idx, names[..|names| - 1]), names[|names| - 1], AppNamesOf(idx, names[|names| - 1]))
  }

  function UsesApp(idx: TaskIndex, app: string): string -> bool {
    name => app in AppNamesOf(idx, name)
  }

  function HasOneApp(idx: TaskIndex): string -> bool {
    name => |AppNamesOf(idx, name)| == 1
  }

  function HasManyApps(idx: TaskIndex): string -> bool {
    name => |AppNamesOf(idx, name)| > 1
  }

  /** Some registered task uses `app`. */
  ghost predicate UsedByRegistry(idx: TaskIndex, app: string) {
    exists k :: 0 <= k < |idx.keys| && app in AppNamesOf(idx, idx.keys[k])
  }

  /** The record `list_apps` builds for one app. */
  function AppInfoOf(idx: TaskIndex, ai: AppIndex, app: string): AppInfo {
    var names := TasksOf(ai, app);
    AppInfo(app, names, CountIf(names, HasOneApp(idx)), CountIf(names, HasManyApps(idx)))
  }

  /** The specification of `list_apps`. */
  ghost function ListedApps(idx: TaskIndex, filter: Option<string>): seq<AppInfo> {
    var ai := CollectApps(idx, idx.keys);
    AppInfosOf(idx, ai, SortStrings(SelectNames(ai.apps, filter)))
  }

  function AppInfosOf(idx: TaskIndex, ai: AppIndex, names: seq<string>): (r: seq<AppInfo>)
    ensures |r| == |names|
    ensures forall i :: 0 <= i < |names| ==> r[i] == AppInfoOf(idx, ai, names[i])
    decreases |names|
  {
    if names == [] then []
    else AppInfosOf(idx, ai, names[..|names| - 1]) + [AppInfoOf(idx, ai, names[|names| - 1])]
  }

  lemma AddTaskStep(ai: AppIndex, name: string, apps: seq<string>, j: nat)
    requires j < |apps|
    ensures var prev := AddTask(ai, name, apps[..j]);
      var app := apps[j];
      var keyed := if app in prev.tasksOf then prev else AppIndex(prev.apps + [app], prev.tasksOf[app := []]);
      AddTask(ai, name, apps[..j + 1]) == AppIndex(keyed.apps, keyed.tasksOf[app := keyed.tasksOf[app] + [name]])
  {
    assert apps[..j + 1][..j] == apps[..j];
  }

  /** The inner loop of the inversion: record `name` under each of `apps`. */
  method RecordTask(keys: seq<string>, tasksOf: map<string, seq<string>>, name: string, apps: seq<string>)
    returns (keys': seq<string>, tasksOf': map<string, seq<string>>)
    ensures AppIndex(keys', tasksOf') == AddTask(AppIndex(keys, tasksOf), name, apps)
  {
    keys', tasksOf' := keys, tasksOf;
    for j := 0 to |apps|
      invariant AppIndex(keys', tasksOf') == AddTask(AppIndex(keys, tasksOf), name, apps[..j])
    {
      AddTaskStep(AppIndex(keys, tasksOf), name, apps, j);
      var app := apps[j];
      if app !in tasksOf' {
        keys' := keys' + [app];
        tasksOf' := tasksOf'[app := []];
      }
      tasksOf' := tasksOf'[app := tasksOf'[app] + [name]];
    }
    assert apps[..|apps|] == apps;
  }

  /** The per-app loop of `list_apps`: how many of its tasks use one app,
      and how many several. */
  method CountAppTasks(idx: TaskIndex, names: seq<string>) returns (single: nat, cross: nat)
    requires forall i :: 0 <= i < |names| ==> names[i] in idx.entries
    ensures single == CountIf(names, HasOneApp(idx))
    ensures cross == CountIf(names, HasManyApps(idx))
  {
    single, cross := 0, 0;
    for j := 0 to |names|
      invariant single == CountIf(names[..j], HasOneApp(idx))
      invariant cross == CountIf(names[..j], HasManyApps(idx))
    {
      assert names[..j + 1][..j] == names[..j];
      var task := idx.entries[names[j]];
      if |task.appNames| > 0 {
        if |task.appNames| == 1 {
          single := single + 1;
        } else {
          cross := cross + 1;
        }
      }
    }
    assert names[..|names|] == names;
  }

  /** Recording a task keeps the dict well formed. */
  lemma {:induction false} AddTaskValid(ai: AppIndex, name: string, apps: seq<string>)
    requires ai.Valid()
    ensures AddTask(ai, name, apps).Valid()
    ensures forall a :: a in AddTask(ai, name, apps).tasksOf <==> a in ai.tasksOf || a in apps
    decreases |apps|
  {
    if apps != [] {
      AddTaskValid(ai, name, apps[..|apps| - 1]);
      var prev := AddTask(ai, name, apps[..|apps| - 1]);
      var app := apps[|apps| - 1];
      if app !in prev.tasksOf {
        assert app !in prev.apps;
      }
      forall a ensures a in AddTask(ai, name, apps).tasksOf <==> a in ai.tasksOf || a in apps {
        assert a in apps <==> a in apps[..|apps| - 1] || a == app by {
          assert apps == apps[..|apps| - 1] + [app];
        }
      }
    }
  }

  /** Recording a task whose apps are distinct appends it once to the list
      of each of its apps and to no other list. */
  lemma {:induction false} AddTaskTasks(ai: AppIndex, name: string, apps: seq<string>, app: string)
    requires Distinct(apps)
    ensures TasksOf(AddTask(ai, name, apps), app) == TasksOf(ai, app) + (if app in apps then [name] else [])
    decreases |apps|
  {
    if apps != [] {
      var init := apps[..|apps| - 1];
      assert apps == init + [apps[|apps| - 1]];
      AddTaskTasks(ai, name, init, app);
    }
  }

  /** The inversion of any run of names is a well-formed dict that holds
      exactly the apps some of the names use. */
  lemma {:induction false} CollectAppsValid(idx: TaskIndex, names: seq<string>)
    ensures CollectApps(idx, names).Valid()
    ensures forall app :: app in CollectApps(idx, names).tasksOf <==>
      exists i :: 0 <= i < |names| && app in AppNamesOf(idx, names[i])
    decreases |names|
  {
    if names == [] {
      assert NoApps.Valid();
    } else {
      var init := names[..|names| - 1];
      var last := names[|names| - 1];
      CollectAppsValid(idx, init);
      AddTaskValid(CollectApps(idx, init), last, AppNamesOf(idx, last));
      forall app ensures app in CollectApps(idx, names).tasksOf <==>
        exists i :: 0 <= i < |names| && app in AppNamesOf(idx, names[i])
      {
        if exists i :: 0 <= i < |names| && app in AppNamesOf(idx, names[i]) {
          var i :| 0 <= i < |names| && app in AppNamesOf(idx, names[i]);
          if i < |init| {
            assert init[i] == names[i];
          }
        }
        if exists i :: 0 <= i < |init| && app in AppNamesOf(idx, init[i]) {
          var i :| 0 <= i < |init| && app in AppNamesOf(idx, init[i]);
          assert names[i] == init[i];
        }
      }
    }
  }

  /** The tasks recorded under an app are the names that use it, in their
      original order (each task's app names being a set). */
  lemma {:induction false} CollectAppsTasks(idx: TaskIndex, names: seq<string>, app: string)
    requires forall n :: n in idx.entries ==> Distinct(idx.entries[n].appNames)
    ensures TasksOf(CollectApps(idx, names), app) == Filter(names, UsesApp(idx, app))
    decreases |names|
  {
    if names != [] {
      var init := names[..|names| - 1];
      var last := names[|names| - 1];
      CollectAppsTasks(idx, init, app);
      AddTaskTasks(CollectApps(idx, init), last, AppNamesOf(idx, last), app);
    }
  }

  /** The first loop of `list_apps`: every registered task recorded under
      each of its apps. */
  method InvertRegistry(idx: TaskIndex) returns (appKeys: seq<string>, appToTasks: map<string, seq<string>>)
    requires idx.Valid()
    ensures AppIndex(appKeys, appToTasks) == CollectApps(idx, idx.keys)
  {
    appKeys, appToTasks := [], map[];
    var allTasks := idx.keys;
    for i := 0 to |allTasks|
      invariant AppIndex(appKeys, appToTasks) == CollectApps(idx, allTasks[..i])
    {
      CollectAppsStep(idx, allTasks, i);
      var taskName := allTasks[i];
      assert taskName in idx.keys;
      var task := idx.entries[taskName];
      assert task.appNames == AppNamesOf(idx, taskName);
      appKeys, appToTasks := RecordTask(appKeys, appToTasks, taskName, task.appNames);
    }
    assert allTasks[..|allTasks|] == allTasks;
  }

  /** Inverting one more task of the registry. */
  lemma CollectAppsStep(idx: TaskIndex, names: seq<string>, i: nat)
    requires i < |names|
    ensures CollectApps(idx, names[..i + 1]) == AddTask(CollectApps(idx, names[..i]), names[i], AppNamesOf(idx, names[i]))
  {
    assert names[..i + 1][..i] == names[..i];
  }

  /** `list_apps`: invert the registry into apps and their tasks, select and
      sort the app names, then count each app's single- and cross-app
      tasks. */
  method ListApps(idx: TaskIndex, filter: Option<string>) returns (apps: seq<AppInfo>)
    requires idx.Valid()
    ensures apps == ListedApps(idx, filter)
  {
    var appKeys, appToTasks := InvertRegistry(idx);
    var appNames := SelectNames(appKeys, filter);
    var sortedApps := SortStrings(appNames);
    assert sortedApps == ListedAppNames(idx, filter);
    ListedAppsRecorded(idx, filter);
    apps := DescribeApps(idx, appKeys, appToTasks, sortedApps);
  }

  /** The per-app loop of `list_apps` over the sorted app names. */
  method DescribeApps(idx: TaskIndex, appKeys: seq<string>, appToTasks: map<string, seq<string>>, names: seq<string>)
    returns (apps: seq<AppInfo>)
    requires forall k :: 0 <= k < |names| ==> names[k] in appToTasks
    requires forall k, j :: 0 <= k < |names| && 0 <= j < |appToTasks[names[k]]| ==> appToTasks[names[k]][j] in idx.entries
    ensures apps == AppInfosOf(idx, AppIndex(appKeys, appToTasks), names)
  {
    ghost var ai := AppIndex(appKeys, appToTasks);
    apps := [];
    for i := 0 to |names|
      invariant apps == AppInfosOf(idx, ai, names[..i])
    {
      assert names[..i + 1][..i] == names[..i];
      var appName := names[i];
      var taskNames := appToTasks[appName];
      var single, cross := CountAppTasks(idx, taskNames);
      assert AppInfo(appName, taskNames, single, cross) == AppInfoOf(idx, ai, appName);
      apps := apps + [AppInfo(appName, taskNames, single, cross)];
    }
    assert names[..|names|] == names;
  }

  /** Each app `list_apps` reports is a key of the inversion, and each task
      recorded under it is registered. */
  lemma ListedAppsRecorded(idx: TaskIndex, filter: Option<string>)
    requires idx.Valid()
    ensures forall k :: 0 <= k < |ListedAppNames(idx, filter)| ==>
      && ListedAppNames(idx, filter)[k] in CollectApps(idx, idx.keys).tasksOf
      && forall j :: 0 <= j < |CollectApps(idx, idx.keys).tasksOf[ListedAppNames(idx, filter)[k]]| ==>
        CollectApps(idx, idx.keys).tasksOf[ListedAppNames(idx, filter)[k]][j] in idx.entries
  {
    var ai := CollectApps(idx, idx.keys);
    CollectAppsValid(idx, idx.keys);
    RecordedTasksRegistered(idx, idx.keys);
    SelectNamesSpec(ai.apps, filter);
    PermutationMembers(ListedAppNames(idx, filter), SelectNames(ai.apps, filter));
  }

  /** Every name recorded under an app of `ai` is in `allowed`. */
  ghost predicate RecordsWithin(ai: AppIndex, allowed: set<string>) {
    forall app, k :: app in ai.tasksOf && 0 <= k < |ai.tasksOf[app]| ==> ai.tasksOf[app][k] in allowed
  }

  /** Only registry names are ever recorded under an app. */
  lemma {:induction false} RecordedTasksRegistered(idx: TaskIndex, names: seq<string>)
    requires forall i :: 0 <= i < |names| ==> names[i] in idx.entries
    ensures RecordsWithin(CollectApps(idx, names), idx.entries.Keys)
    decreases |names|
  {
    if names != [] {
      var init := names[..|names| - 1];
      RecordedTasksRegistered(idx, init);
      AddTaskRecords(CollectApps(idx, init), names[|names| - 1], AppNamesOf(idx, names[|names| - 1]), idx.entries.Keys);
    }
  }

  /** Recording a name from `allowed` keeps every recorded name in `allowed`. */
  lemma {:induction false} AddTaskRecords(ai: AppIndex, name: string, apps: seq<string>, allowed: set<string>)
    requires name in allowed && RecordsWithin(ai, allowed)
    ensures RecordsWithin(AddTask(ai, name, apps), allowed)
    decreases |apps|
  {
    if apps != [] {
      var prev := AddTask(ai, name, apps[..|apps| - 1]);
      AddTaskRecords(ai, name, apps[..|apps| - 1], allowed);
      var app := apps[|apps| - 1];
      var keyed := if app in prev.tasksOf then prev else AppIndex(prev.apps + [app], prev.tasksOf[app := []]);
      assert RecordsWithin(keyed, allowed);
      var r := AppIndex(keyed.apps, keyed.tasksOf[app := keyed.tasksOf[app] + [name]]);
      forall a, k | a in r.tasksOf && 0 <= k < |r.tasksOf[a]| ensures r.tasksOf[a][k] in allowed {
        if a == app && k == |r.tasksOf[a]| - 1 {
          assert r.tasksOf[a][k] == name;
        } else if a == app {
          assert r.tasksOf[a][k] == keyed.tasksOf[app][k];
        } else {
          assert r.tasksOf[a] == keyed.tasksOf[a];
        }
      }
      assert RecordsWithin(r, allowed);
    }
  }

  /** `get_app_info`: the listed app with exactly the given name, or
      `KeyError`. */
  method GetAppInfo(appName: string, idx: TaskIndex) returns (r: Result<AppInfo>)
    requires idx.Valid()
    ensures r.Ok? <==> exists i :: 0 <= i < |ListedApps(idx, None)| && ListedApps(idx, None)[i].name == appName
    ensures r.Ok? ==> r.value.name == appName && r.value in ListedApps(idx, None)
    ensures r.Err? ==> r.error == KeyError(appName)
  {
    var apps := ListApps(idx, None);
    r := FindApp(apps, appName);
  }

  /** The search loop of `get_app_info`: the first app named `appName`. */
  method FindApp(apps: seq<AppInfo>, appName: string) returns (r: Result<AppInfo>)
    ensures r.Ok? <==> exists i :: 0 <= i < |apps| && apps[i].name == appName
    ensures r.Ok? ==> r.value.name == appName && r.value in apps
    ensures r.Err? ==> r.error == KeyError(appName)
  {
    for i := 0 to |apps|
      invariant forall k :: 0 <= k < i ==> apps[k].name != appName
    {
      if apps[i].name == appName {
        return Ok(apps[i]);
      }
    }
    return Err(KeyError(appName));
  }

  /** The app names `list_apps` reports, in order. */
  ghost function ListedAppNames(idx: TaskIndex, filter: Option<string>): seq<string> {
    SortStrings(SelectNames(CollectApps(idx, idx.keys).apps, filter))
  }

  lemma ListedAppsAreNamed(idx: TaskIndex, filter: Option<string>)
    ensures |ListedApps(idx, filter)| == |ListedAppNames(idx, filter)|
    ensures forall i :: 0 <= i < |ListedApps(idx, filter)| ==> ListedApps(idx, filter)[i].name == ListedAppNames(idx, filter)[i]
  {
  }

  lemma ListedAppsShape(idx: TaskIndex, filter: Option<string>)
    ensures |ListedApps(idx, filter)| == |ListedAppNames(idx, filter)|
    ensures forall i :: 0 <= i < |ListedApps(idx, filter)| ==>
      ListedApps(idx, filter)[i] == AppInfoOf(idx, CollectApps(idx, idx.keys), ListedAppNames(idx, filter)[i])
  {
  }

  /** The apps `list_apps` reports are sorted by name, each once. */
  lemma ListedAppsSorted(idx: TaskIndex, filter: Option<string>)
    ensures forall i, j :: 0 <= i < j < |ListedApps(idx, filter)| ==>
      StrLe(ListedApps(idx, filter)[i].name, ListedApps(idx, filter)[j].name)
      && ListedApps(idx, filter)[i].name != ListedApps(idx, filter)[j].name
  {
    var ai := CollectApps(idx, idx.keys);
    CollectAppsValid(idx, idx.keys);
    var selected := SelectNames(ai.apps, filter);
    SelectNamesSpec(ai.apps, filter);
    DistinctPermutation(ListedAppNames(idx, filter), selected);
    ListedAppsAreNamed(idx, filter);
  }

  /** The apps `list_apps` reports are exactly the apps some registered
      task uses that pass the filter. */
  lemma ListedAppsMembers(idx: TaskIndex, filter: Option<string>, app: string)
    ensures (exists i :: 0 <= i < |ListedApps(idx, filter)| && ListedApps(idx, filter)[i].name == app) <==>
      UsedByRegistry(idx, app) && Matches(filter, app)
  {
    ListedAppsNamedIff(idx, filter, app);
    ListedAppNamesIff(idx, filter, app);
    CollectAppsValid(idx, idx.keys);
  }

  /** An app is listed exactly when its name is among the sorted names. */
  lemma ListedAppsNamedIff(idx: TaskIndex, filter: Option<string>, app: string)
    ensures (exists i :: 0 <= i < |ListedApps(idx, filter)| && ListedApps(idx, filter)[i].name == app) <==>
      app in ListedAppNames(idx, filter)
  {
    ListedAppsAreNamed(idx, filter);
    var names := ListedAppNames(idx, filter);
    var r := ListedApps(idx, filter);
    if app in names {
      var i :| 0 <= i < |names| && names[i] == app;
      assert r[i].name == app;
    }
  }

  /** The sorted names are the inverted apps that pass the filter. */
  lemma ListedAppNamesIff(idx: TaskIndex, filter: Option<string>, app: string)
    ensures app in ListedAppNames(idx, filter) <==> app in CollectApps(idx, idx.keys).apps && Matches(filter, app)
  {
    var ai := CollectApps(idx, idx.keys);
    SelectNamesSpec(ai.apps, filter);
    PermutationMembers(ListedAppNames(idx, filter), SelectNames(ai.apps, filter));
  }

  /** Each listed app's tasks are the registered tasks that use it, in
      registry order, and each of them is counted as single-app or
      cross-app. */
  lemma ListedAppsTasks(idx: TaskIndex, filter: Option<string>, i: nat)
    requires forall n :: n in idx.entries ==> Distinct(idx.entries[n].appNames)
    requires i < |ListedApps(idx, filter)|
    ensures var app := ListedApps(idx, filter)[i];
      && app.tasks == Filter(idx.keys, UsesApp(idx, app.name))
      && app.singleAppTaskCount + app.crossAppTaskCount == |app.tasks|
  {
    var app := ListedApps(idx, filter)[i];
    var ai := CollectApps(idx, idx.keys);
    CollectAppsTasks(idx, idx.keys, app.name);
    var ts := app.tasks;
    assert ts == TasksOf(ai, app.name);
    forall k | 0 <= k < |ts| ensures HasManyApps(idx)(ts[k]) <==> !HasOneApp(idx)(ts[k]) {
      assert UsesApp(idx, app.name)(ts[k]);
    }
    CountSplit(ts, HasOneApp(idx), HasManyApps(idx));
  }
}
