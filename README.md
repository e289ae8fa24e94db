# MobileWorld core, modelled in Dafny

MobileWorld is a benchmark for agents working on Android phones. An
evaluation server drives an emulator, and a client on the agent's side
talks to the server over HTTP. This project models five parts of it and
proves what they promise.

- **The task registry** (`registry.dfy`, module `Registry`). `TaskRegistry`
  is an ordered map from task class name to task instance. It is filled by
  scanning a directory of Python task definition files. The model is
  imperative: a `class` whose methods update the ordered map (a key
  sequence plus a map), the event log and a shared `ScanLog` object. That
  object holds the class-level set of paths whose scans have already
  been logged. Each method is tied to a fold over the scan's inputs
  (`ScanRun`, `ScanFiles`, `AdmitClasses`), and the registry's promises
  are proved as lemmas about these folds:
  - the last definition of a name wins, with a warning;
  - an overwritten name keeps its position;
  - failures are isolated per file and per class;
  - the start and complete banners are logged once per path;
  - lookups agree with each other.
- **The remote session client** (`client.dfy`, module `Client`).
  `AndroidEnvClient` is a small state machine over `initialized`,
  `currentTaskType`, `tools` and a log of the requests sent. It covers:
  - lazy initialization;
  - the suite switch;
  - the screenshot retried up to three times;
  - actions;
  - task init and tear-down;
  - the task list filter;
  - metadata.

  `McpEnvClient` wraps one such client. It adds the tool catalog, tool
  scoping (`reset_tools`) and routing of MCP tool calls. Each method
  changes the client's fields and is proved equal to a pure transition
  function over a `Session` value. The client's promises are lemmas about
  those functions. `parse_result_file` and `scan_finished_tasks` are
  modelled over the file's lines and the directory listing.
- **The information API** (`info.dfy`, module `Info`). It holds the data
  shown by the `info` sub-commands, derived from a registry snapshot:
  - task info, the filtered and sorted task list, and task statistics;
  - the agent list and lookup;
  - the inversion from apps to tasks, with per-app counts.

  The loops of the source are methods proved against specification
  functions.
- **Two calendar task checkers** (`check_meal_event.dfy` and
  `schedule_lunch.dfy`). `CheckMealEventAskUserTask` validates the last
  sent email. `ScheduleLunchViaSmsAskUserTask` checks for an SMS reply and
  then for a calendar event in a fixed window. Their foreign lookups are
  parameters: the sent-email record, whether the SMS was found, and the
  calendar events.

Supporting modules:
- `outcomes.dfy`: `Option`, `Result`, `Outcome` and the Python exception
  kinds (for example `KeyError`).
- `text.dfy`: ASCII lower-casing, substring search, `strip`, `split`,
  decimal rendering and string order.
- `seqs.dfy`: list comprehensions, with and without a condition, and counting.
- `sorting.dfy`: an insertion sort over a key. It is proved sorted and a
  permutation.

I/O and the HTTP calls are parameters. Each call becomes an outcome the
caller supplies: a reply datatype, or a flag for "the request raised".
The filesystem walk, module loading and class reflection are an input
list of candidate files. Each candidate file has a load outcome and its
candidate classes.

### Behaviour of the code worth knowing

- The scan skips every file named `__init__.py`, in whichever directory
  it sits (`registry.py:58-59`).
- A failed tear-down leaves `currentTaskType` unchanged. Only a successful
  tear-down clears it (`client.py:234-246`).
- In `execute_action`, the guard `response.text is not None` always
  holds, since `requests` gives a string body. An empty body therefore
  reaches `json.loads` and raises `ValueError`, and a null "result" gives
  no answer (`client.py:167-170`).
- `switch_suite_family` resets only the `initialized` flag. It never
  touches the current task (`client.py:82-90`).
- In `initialize_task`, the current task is set right after `/task/init`
  succeeds. If the screenshot after it then fails, the current task is
  still set, yet the call raises `RuntimeError` (`client.py:213-228`).
- `CheckMealEventAskUserTask.initialize_task_hook` is annotated to return
  a `bool`, but it returns `None` (`check_meal_event_ask_user.py:23-26`).
- Tool filters for an `agent-mcp` task come only from app names that
  contain "MCP" (`client.py:343-345`). An `agent-mcp` task without such an
  app ends with an empty tool list and a failed assertion. This is
  `Client.ResetToolsMcpTaskWithoutMcpApps`.

## Model

| member | source | states |
|---|---|---|
| Registry.PutSpec | src/mobile_world/tasks/registry.py:114-119 | Storing under a name keeps the map well formed. Exactly one key of that name remains, holding the new instance. Every other entry is untouched. An existing name keeps its position and a new name is appended. |
| Registry.ChooseTaskSetPath | src/mobile_world/tasks/registry.py:27-41 | The scanned directory is the given path if there is one. Otherwise, for "android_world", it is the third-party tasks when they exist and the android_world definitions when they do not. Any other suite name gives the mobile_world definitions. |
| Registry.ScanLog.constructor | src/mobile_world/tasks/registry.py:12 | The shared set of logged scan paths starts empty. |
| Registry.TaskRegistry.constructor | src/mobile_world/tasks/registry.py:14-42 | The registry is well formed and records its suite family and chosen path. Its contents are the scan of that path, with banners only if the path was not logged before. A missing directory leaves it empty. The logged set grows by exactly that path. |
| Registry.TaskRegistry.ScanAndRegisterTasks | src/mobile_world/tasks/registry.py:44-65 | The new registry state is the scan of the task-set path from the old state. Banners appear only when the path is not yet in the logged set. The logged set grows by the path. |
| Registry.TaskRegistry.LoadTasksFromFile | src/mobile_world/tasks/registry.py:67-88 | The new state is one file's load. A missing spec or a raising module only logs, and a loaded module registers its classes. |
| Registry.TaskRegistry.RegisterTasksFromModule | src/mobile_world/tasks/registry.py:90-125 | The new state is the module's classes admitted in order, or only a log entry when `BaseTask` cannot be imported. |
| Registry.TaskRegistry.GetTask | src/mobile_world/tasks/registry.py:127-146 | Succeeds exactly for names in `list_tasks()` and returns the stored instance. Otherwise it fails with `KeyError(name)`. |
| Registry.TaskRegistry.ListTasks | src/mobile_world/tasks/registry.py:148-150 | The names have no duplicates, and they are exactly the registered names. |
| Registry.TaskRegistry.HasTask | src/mobile_world/tasks/registry.py:152-154 | True exactly when the name is in `list_tasks()`, and exactly when `get_task` succeeds. |
| Registry.AdmitClassesKeepsOrder | src/mobile_world/tasks/registry.py:119 | Registering classes only appends names. Earlier names keep their positions, and the map stays well formed. |
| Registry.AdmitClassesRegisters | src/mobile_world/tasks/registry.py:104-112 | A name is registered after a module exactly when it was before, or some class subclasses `BaseTask`, is not `BaseTask`, is defined in that module, instantiates, and has that name. |
| Registry.AdmitClassesLastWins | src/mobile_world/tasks/registry.py:114-119 | The last registering class with a name is the one stored under it. |
| Registry.OverwriteWarns | src/mobile_world/tasks/registry.py:114-119 | Re-registering a present name logs exactly one overwrite warning. It keeps the key order and stores the new instance. |
| Registry.ClassFailureIsolated | src/mobile_world/tasks/registry.py:104-125 | A class that does not register, whether filtered out or raising on instantiation, changes nothing about the other classes' registrations. |
| Registry.FileFailureIsolated | src/mobile_world/tasks/registry.py:58-59 | A skipped file changes nothing about the other files' registrations. Skipped files are an `__init__.py`, a file without a spec, a raising module, or any file while `BaseTask` is unavailable. |
| Registry.ScanFilesRegisters | src/mobile_world/tasks/registry.py:57-61 | After the scan, a name is registered exactly when it already was, or a file that is loaded defines a registering class of that name. |
| Registry.AdmitClassesExtendsLog | src/mobile_world/tasks/registry.py:114-125 | Registration only appends to the log, and never a start or complete banner. |
| Registry.ScanFilesExtendsLog | src/mobile_world/tasks/registry.py:57-61 | The scan of files only appends to the log, and never a banner. |
| Registry.ScanRunLogging | src/mobile_world/tasks/registry.py:46-65 | A logged scan starts with the start banner and ends with the complete banner listing the registered names. An unlogged scan emits no banner. A missing directory changes no registration and adds only "not found" (after the banner, if any). |
| Registry.AdmitClassesAppend | src/mobile_world/tasks/registry.py:104-125 | Admitting two runs of classes equals admitting their concatenation. |
| Registry.ScanFilesAppend | src/mobile_world/tasks/registry.py:57-61 | Scanning two runs of files equals scanning their concatenation. |
| Client.EnsureInit | src/mobile_world/runtime/client.py:45-54 | An initialized session is left as it is. Otherwise `/init` is posted, and the flag becomes true exactly when the post succeeds, in which case the outcome passes. No other field changes. |
| Client.EnsureInitIdempotent | src/mobile_world/runtime/client.py:45-54 | After a successful initialization, a second call sends nothing and passes. |
| Client.SwitchSpec | src/mobile_world/runtime/client.py:72-93 | `initialized` becomes false exactly when the result says it switched. A transport failure is a `RuntimeError` naming the target and keeps the flag. The current task and the tools never change. |
| Client.SwitchThenInit | src/mobile_world/runtime/client.py:82-88 | After a successful switch, the next lazy initialization posts `/init` again. |
| Client.StripDataUrlPrefix | src/mobile_world/runtime/client.py:306-310 | The result has no comma. A string without a comma is kept. Otherwise the result is the text after the last comma. |
| Client.StripDataUrl | src/mobile_world/runtime/client.py:308-310 | A data URL `header,payload` is reduced to its payload. |
| Client.StripDataUrlIdempotent | src/mobile_world/runtime/client.py:306-310 | Stripping twice is stripping once. |
| Client.RetrySucceedsIff | src/mobile_world/runtime/client.py:104-132 | The screenshot succeeds exactly when one of the attempts up to the third finds the device initialized, after its own lazy init, and gets an OK reply. |
| Client.RetryBounded | src/mobile_world/runtime/client.py:104-111 | At most three `/screenshot` requests and at most two retry warnings. A failed call logged exactly two warnings. |
| Client.RetrySends | src/mobile_world/runtime/client.py:104-126 | The attempts from try `k` on send at most one `/screenshot` request each. |
| Client.RetryWarnings | src/mobile_world/runtime/client.py:104-111 | The attempts from try `k` on log at most one warning per retry. A failure logs one for every retry left. |
| Client.ShotAttemptSends | src/mobile_world/runtime/client.py:114-126 | One attempt sends at most one `/screenshot` request. |
| Client.FailTwiceThenSucceed | src/mobile_world/runtime/client.py:104-132 | Two failed attempts and then a good one return the third reply's image, after warnings for tries 1 and 2. |
| Client.FailThrice | src/mobile_world/runtime/client.py:104-126 | Three failed attempts fail the call after warnings for tries 1 and 2. |
| Client.ScreenshotKeepsSent | src/mobile_world/runtime/client.py:112-132 | A screenshot only appends requests and never changes the current task or the tools. |
| Client.AskUserAnswer | src/mobile_world/runtime/client.py:167-171 | Only an ask-user action gets an answer. A reply that is not JSON, an empty one included, raises `ValueError`, and JSON that is not an object raises `AttributeError`. For an object, a missing "result" gives "", a null one gives no answer, and a string is the answer. |
| Client.Execute | src/mobile_world/runtime/client.py:148-176 | Executing an action never changes the current task or the tools. |
| Client.ExecuteAnswer | src/mobile_world/runtime/client.py:148-176 | A successful step has no tool call. It has an ask-user answer exactly for an ask-user action whose reply is a JSON object with a "result" that is not null, and the answer is that "result", or "" when the key is missing. A successful ask-user step always had a JSON object as its reply. Its screenshot is the retried screenshot taken after `/step`. |
| Client.SuiteTaskList | src/mobile_world/runtime/client.py:185-190 | The list is never longer than the server's, and it is as long when MCP tasks are enabled. |
| Client.SuiteTaskListSpec | src/mobile_world/runtime/client.py:185-190 | A name is listed exactly when some entry has it and either MCP is enabled or the entry lacks the "agent-mcp" tag. |
| Client.InitializeTaskSpec | src/mobile_world/runtime/client.py:209-228 | The current task becomes the name exactly when `/task/init` succeeds, even if the screenshot then fails. Every later failure is a `RuntimeError` naming the task. A failed lazy init propagates unchanged. |
| Client.InitTaskErrorNames | src/mobile_world/runtime/client.py:226-228 | The re-raised error is a `RuntimeError` whose message contains the task name. |
| Client.TearDownSpec | src/mobile_world/runtime/client.py:230-246 | Past the lazy init it never raises. Success clears the current task with status "success". Failure keeps it, with status "error". Both messages name the task. |
| Client.Health | src/mobile_world/runtime/client.py:287-296 | Healthy exactly when the reply is JSON whose "ok" is true. A failure or a missing "ok" is unhealthy. |
| Client.McpFiltersSound | src/mobile_world/runtime/client.py:343-345 | Every derived filter is the last "-" segment of an app whose name contains "MCP", and contains no "-". |
| Client.McpFiltersComplete | src/mobile_world/runtime/client.py:343-345 | Every such app contributes its last segment. Without such apps there are no filters. |
| Client.McpAppFilter | src/mobile_world/runtime/client.py:344-345 | The app "MCP-service" yields the single filter "service". |
| Client.AnyFilterMatches | src/mobile_world/runtime/client.py:352 | True exactly when some filter, lowercased, occurs in the lowercased tool name. |
| Client.ScopeTools | src/mobile_world/runtime/client.py:349-353 | A tool is kept exactly when it is in the catalog and some filter matches its name. No filters keep no tools. |
| Client.ScopeToolsOrder | src/mobile_world/runtime/client.py:349-353 | Scoping keeps catalog order: scoping a concatenation concatenates the scoped parts. |
| Client.ScopeToolsEmptyFilter | src/mobile_world/runtime/client.py:352 | An empty filter matches every tool. |
| Client.ResetToolsNothing | src/mobile_world/runtime/client.py:336-348 | With no task and no filters, nothing changes and nothing is sent. |
| Client.ResetToolsExplicit | src/mobile_world/runtime/client.py:348-354 | Explicit filters without a task set the tools to the scoped catalog, and the assertion passes. |
| Client.ResetToolsPlainTask | src/mobile_world/runtime/client.py:338-354 | A task whose tags lack "agent-mcp" gets empty tools, and the assertion passes. |
| Client.ResetToolsMcpTask | src/mobile_world/runtime/client.py:338-354 | An "agent-mcp" task gets the catalog scoped by its MCP-app filters. The assertion passes exactly when that is non-empty, and otherwise fails naming the task. |
| Client.ResetToolsMcpTaskWithoutMcpApps | src/mobile_world/runtime/client.py:341-354 | An "agent-mcp" task without an app naming "MCP" gets no tools and fails the assertion. |
| Client.TruncateToolCall | src/mobile_world/runtime/client.py:357-362 | `None` stays `None`. Text that starts with the HTML doctype is replaced by its markdown conversion. Anything else is returned unchanged. |
| Client.McpExecuteRouting | src/mobile_world/runtime/client.py:364-379 | A non-MCP action is the plain client's `execute_action`. An unknown tool name raises `KeyError` before anything is sent. The current task and the tools never change. |
| Client.McpExecuteToolCall | src/mobile_world/runtime/client.py:364-377 | A successful MCP call sends the tool call first. It returns the truncated tool result and no ask-user answer. |
| Client.AndroidEnvClient.constructor | src/mobile_world/runtime/client.py:26-43 | A new client is uninitialized, has no current task and no tools, and has sent nothing. |
| Client.AndroidEnvClient.EnsureInitialized | src/mobile_world/runtime/client.py:45-54 | The fields and the outcome are those of `EnsureInit` from the old fields. |
| Client.AndroidEnvClient.SwitchSuiteFamily | src/mobile_world/runtime/client.py:56-93 | The fields and the result are those of `Switch` from the old fields. |
| Client.AndroidEnvClient.ScreenshotAttempt | src/mobile_world/runtime/client.py:112-132 | One attempt's new fields and result are those of `ShotAttempt`. |
| Client.AndroidEnvClient.GetScreenshot | src/mobile_world/runtime/client.py:104-132 | The retry loop's new fields and result are those of `Screenshot`: at most three attempts, with a warning before each retry. |
| Client.AndroidEnvClient.ExecuteAction | src/mobile_world/runtime/client.py:148-176 | The new fields and the observation are those of `Execute`. |
| Client.AndroidEnvClient.GetSuiteTaskList | src/mobile_world/runtime/client.py:178-192 | The new fields and the list are those of `SuiteList`. |
| Client.AndroidEnvClient.InitializeTask | src/mobile_world/runtime/client.py:209-228 | The new fields and the observation are those of `TaskInitialization`. |
| Client.AndroidEnvClient.TearDownTask | src/mobile_world/runtime/client.py:230-246 | The new fields and the response are those of `TearDown`. |
| Client.AndroidEnvClient.GetTaskMetadata | src/mobile_world/runtime/client.py:274-280 | The new fields and the metadata are those of `GetMetadata`. |
| Client.DeriveMcpFilters | src/mobile_world/runtime/client.py:340-345 | The appending loop produces exactly `McpFilters(apps)`. |
| Client.McpEnvClient.constructor | src/mobile_world/runtime/client.py:323-332 | A fresh client holds the catalog as its tools and its complete tool set, and the tool map routes exactly the catalog's names. |
| Client.McpEnvClient.ResetTools | src/mobile_world/runtime/client.py:336-355 | The client's new fields and the assertion outcome are those of `ToolReset` over the complete tool set. |
| Client.McpEnvClient.ExecuteAction | src/mobile_world/runtime/client.py:364-379 | The new fields and the observation are those of `McpExecute` over the tool map. |
| Client.ParseResultFile | src/mobile_world/runtime/client.py:382-395 | There is a score exactly when there is a first line and it contains "score:". There is a reason exactly when there are at least two lines. |
| Client.ScoreLine | src/mobile_world/runtime/client.py:386-387 | A first line `prefix` + "score:" + `text`, whose first "score:" is the one after `prefix` and whose `text` holds no other, yields the stripped `text` as the score, whatever `prefix` is. |
| Client.LeadingScoreLine | src/mobile_world/runtime/client.py:386-387 | A first line that starts with "score:" and holds no other yields the stripped rest as the score. |
| Client.ReasonLine | src/mobile_world/runtime/client.py:391-394 | With at least two lines, the reason is the second line, stripped. |
| Client.FinishedDirsSpec | src/mobile_world/runtime/client.py:405-411 | A directory is kept exactly when it is listed, has the score file, does not contain "backup", and is in the task list if one is given. |
| Client.ScanFinishedTasks | src/mobile_world/runtime/client.py:398-418 | A missing root gives `([], [])`. Otherwise the names are the kept directories in listing order, and each score is the one parsed from that directory's result file. The two lists have equal length. |
| Info.AppClassification | src/mobile_world/core/api/info.py:25-33 | A task is never both cross-app and single-app. It is neither exactly when it has no apps. |
| Info.SelectNames | src/mobile_world/core/api/info.py:138-142 | A falsy filter keeps every name. Otherwise the names are filtered by the lowercased filter. |
| Info.SelectNamesSpec | src/mobile_world/core/api/info.py:138-142 | A name is selected exactly when it is listed and contains the filter, ignoring case. Distinct names stay distinct. |
| Info.GetTaskInfo | src/mobile_world/core/api/info.py:87-115 | An unknown name is `KeyError(name)`. Otherwise it succeeds exactly when the instance's attributes can be read, and then describes the instance: same name, goal `None` exactly when empty, tags sorted and a permutation of the instance's, and the app names. |
| Info.InfosOf | src/mobile_world/core/api/info.py:145-151 | One info per name, in order: the looked-up info, or a bare `TaskInfo(name)` when the lookup fails. |
| Info.ListTasks | src/mobile_world/core/api/info.py:118-156 | The loop and the sort produce exactly the specification `ListedTasks`. |
| Info.DescribeTasks | src/mobile_world/core/api/info.py:144-151 | The lookup loop yields `InfosOf` of the names: each name's info, or a bare record when the lookup raises. |
| Info.ListedTasksSpec | src/mobile_world/core/api/info.py:136-154 | The listing is sorted by (lowercased first app or "", lowercased name). It has one entry per selected name, every selected name's info is in it, and it holds nothing else. |
| Info.CountTags | src/mobile_world/core/api/info.py:189-190 | The tag loop produces exactly `AddTags(counts, tags)`. |
| Info.AddTagsStep | src/mobile_world/core/api/info.py:190 | Counting one more tag increments its count, starting from 0. |
| Info.AddTagsSpec | src/mobile_world/core/api/info.py:189-190 | A tag is a key exactly when it was before it or occurs in the tags. Its count grows by its number of occurrences. |
| Info.GetTaskStatistics | src/mobile_world/core/api/info.py:159-193 | The counting loop produces exactly the statistics of the listed tasks. |
| Info.CountStatistics | src/mobile_world/core/api/info.py:178-192 | The counting loop yields exactly `StatisticsOf` the tasks: the total, the three class counts, and the tag counts. |
| Info.StatisticsAddUp | src/mobile_world/core/api/info.py:181-187 | Single-app, cross-app and app-less counts add up to the total. |
| Info.StatisticsTotals | src/mobile_world/core/api/info.py:174-187 | The total is the number of selected names, and the three classes add up to it. |
| Info.TagCountsSpec | src/mobile_world/core/api/info.py:179-192 | A tag is counted exactly when some listed task has it. Its count is its number of occurrences. |
| Info.OccurrencesCountTasks | src/mobile_world/core/api/info.py:189-190 | With duplicate-free tags, the occurrences of a tag are the number of tasks having it. |
| Info.TagCountIsTaskCount | src/mobile_world/core/api/info.py:179-192 | When no registered task repeats a tag, as for set-valued `task_tags`, `tag_counts[t]` is the number of listed tasks whose tags contain `t`. |
| Info.InfoTagsDistinct | src/mobile_world/core/api/info.py:113 | A task without repeated tags gets an info without repeated tags, since the tags are sorted, not changed. |
| Info.GetAgentInfo | src/mobile_world/core/api/info.py:225-245 | Succeeds exactly for a configured agent type, with its class name. It needs an API key exactly when the configuration says true. Otherwise it is `KeyError`. |
| Info.AgentsOf | src/mobile_world/core/api/info.py:212-220 | One agent info per type, in order, built from the type's configuration. |
| Info.ListedAgentTypesKnown | src/mobile_world/core/api/info.py:205-213 | Every selected agent type is configured. |
| Info.ListAgents | src/mobile_world/core/api/info.py:196-222 | The loop produces exactly the specification `ListedAgents`. |
| Info.DescribeAgents | src/mobile_world/core/api/info.py:211-220 | The loop yields one agent info per type, in order: `AgentsOf` the types. |
| Info.ListedAgentsAreTyped | src/mobile_world/core/api/info.py:212-216 | The i-th listed agent has the i-th sorted selected type. |
| Info.ListedAgentsMembers | src/mobile_world/core/api/info.py:205-212 | An agent type is listed exactly when it is selected by the filter. |
| Info.ListedAgentsAgree | src/mobile_world/core/api/info.py:213-245 | Every listed agent is what `get_agent_info` returns for its type. |
| Info.ListedAgentsSorted | src/mobile_world/core/api/info.py:212 | Listed agents are strictly increasing by type. |
| Info.AddTaskStep | src/mobile_world/core/api/info.py:273-276 | Recording a task under one more app creates the app's key at the end if it is missing, then appends the task. |
| Info.RecordTask | src/mobile_world/core/api/info.py:273-276 | The inner loop produces exactly `AddTask`. |
| Info.AddTaskValid | src/mobile_world/core/api/info.py:273-276 | Recording keeps the app index well formed. Its keys become the old ones plus the task's apps. |
| Info.AddTaskTasks | src/mobile_world/core/api/info.py:273-276 | An app's task list grows by the task exactly when the task names that app. |
| Info.CollectAppsValid | src/mobile_world/core/api/info.py:267-276 | The inversion is well formed. Its apps are exactly those some task names. |
| Info.CollectAppsTasks | src/mobile_world/core/api/info.py:270-276 | Each app's task list is the registry names using it, in registry order. |
| Info.InvertRegistry | src/mobile_world/core/api/info.py:267-276 | The nested loop produces exactly `CollectApps` over the registry's names. |
| Info.CollectAppsStep | src/mobile_world/core/api/info.py:270-276 | Inverting one more registry name records it under each of its apps. |
| Info.CountAppTasks | src/mobile_world/core/api/info.py:287-296 | The counters are the numbers of the app's tasks with exactly one app and with more than one. |
| Info.AppInfosOf | src/mobile_world/core/api/info.py:285-305 | One app info per name, in order. |
| Info.ListApps | src/mobile_world/core/api/info.py:248-307 | The loops produce exactly the specification `ListedApps`. |
| Info.DescribeApps | src/mobile_world/core/api/info.py:284-305 | The per-app loop yields `AppInfosOf` the sorted names, counting each app's tasks. |
| Info.ListedAppsRecorded | src/mobile_world/core/api/info.py:285-291 | Every listed app has a task list, and each of its tasks is registered. |
| Info.RecordedTasksRegistered | src/mobile_world/core/api/info.py:270-276 | Only registry names are ever recorded under an app. |
| Info.AddTaskRecords | src/mobile_world/core/api/info.py:273-276 | Recording an allowed name keeps every record allowed. |
| Info.ListedAppsAreNamed | src/mobile_world/core/api/info.py:285-300 | The i-th listed app carries the i-th sorted selected app name. |
| Info.ListedAppsShape | src/mobile_world/core/api/info.py:285-305 | Each listed app is the app, its task list and its two counts. |
| Info.ListedAppsSorted | src/mobile_world/core/api/info.py:285 | Apps come out strictly increasing by name. |
| Info.ListedAppsMembers | src/mobile_world/core/api/info.py:270-285 | An app is listed exactly when some registered task names it and it passes the filter. |
| Info.ListedAppsNamedIff | src/mobile_world/core/api/info.py:285-305 | An app is listed exactly when its name is among the sorted selected names. |
| Info.ListedAppNamesIff | src/mobile_world/core/api/info.py:279-285 | The sorted names are exactly the inverted apps that pass the filter. |
| Info.ListedAppsTasks | src/mobile_world/core/api/info.py:270-305 | Each listed app's tasks are the registry names using it, in registry order, and its single-app and cross-app counts add up to their number. |
| Info.FindApp | src/mobile_world/core/api/info.py:329-332 | The search finds an app exactly when one has that name, returns that app, and otherwise raises `KeyError(name)`. |
| Info.GetAppInfo | src/mobile_world/core/api/info.py:310-332 | Succeeds exactly when an unfiltered listed app has the name, returns that app, and otherwise raises `KeyError(name)`. |
| CheckMealEvent.IsSuccessful | src/mobile_world/tasks/definitions/calendar/check_meal_event_ask_user.py:28-48 | A failed initialization check propagates its error. Every verdict scores 0.0 or 1.0, and the score is 1.0 exactly when the reason is "Success". |
| CheckMealEvent.NoEmail | src/mobile_world/tasks/definitions/calendar/check_meal_event_ask_user.py:31-35 | No sent email scores 0.0 with "No email found". |
| CheckMealEvent.SucceedsIff | src/mobile_world/tasks/definitions/calendar/check_meal_event_ask_user.py:37-43 | Success exactly when the lowercased recipient is the lowercased expected address and the body is non-empty, a missing field counting as "". |
| CheckMealEvent.RecipientCaseInsensitive | src/mobile_world/tasks/definitions/calendar/check_meal_event_ask_user.py:37-38 | Recipients that differ only in letter case get the same verdict. |
| CheckMealEvent.EmptyFieldsFail | src/mobile_world/tasks/definitions/calendar/check_meal_event_ask_user.py:37-41 | The right recipient with an empty or missing body fails, and so does a missing recipient. |
| CheckMealEvent.FailureNamesRecipients | src/mobile_world/tasks/definitions/calendar/check_meal_event_ask_user.py:41-48 | Every failure about a sent email names the actual and the expected recipient, both lowercased. |
| CheckMealEvent.WrongRecipientReasonNames | src/mobile_world/tasks/definitions/calendar/check_meal_event_ask_user.py:46-48 | The wrong-recipient reason contains both addresses. |
| CheckMealEvent.CheckMealEventAskUserTask.constructor | src/mobile_world/tasks/definitions/calendar/check_meal_event_ask_user.py:10-21 | A new task has no relevant information yet. |
| CheckMealEvent.CheckMealEventAskUserTask.InitializeTaskHook | src/mobile_world/tasks/definitions/calendar/check_meal_event_ask_user.py:23-26 | The hook sets the contact hint and returns no value. |
| ScheduleLunch.ExpectedTimestamps | src/mobile_world/tasks/definitions/calendar/schedule_lunch_via_sms_ask_user.py:31-34 | The day count starts at the epoch. The expected start is the timestamp of 2025-10-17 11:00 UTC, and the end is start + 3600 × 1. |
| ScheduleLunch.HasExpectedEvent | src/mobile_world/tasks/definitions/calendar/schedule_lunch_via_sms_ask_user.py:99-103 | True exactly when some event matches both expected timestamps. |
| ScheduleLunch.SmsCheckedFirst | src/mobile_world/tasks/definitions/calendar/schedule_lunch_via_sms_ask_user.py:61-76 | Without the SMS reply the verdict is 0.0 with the SMS reason, whatever the calendar holds. |
| ScheduleLunch.SucceedsIff | src/mobile_world/tasks/definitions/calendar/schedule_lunch_via_sms_ask_user.py:99-119 | `(1.0, "Success")` exactly when the SMS was found and some event has both the expected start and end. |
| ScheduleLunch.OneEndIsNotEnough | src/mobile_world/tasks/definitions/calendar/schedule_lunch_via_sms_ask_user.py:101 | An event matching only one end of the window fails. |
| ScheduleLunch.FailureCountsEvents | src/mobile_world/tasks/definitions/calendar/schedule_lunch_via_sms_ask_user.py:105-117 | Without a matching event the verdict is 0.0, with a reason that contains the number of events. |
| ScheduleLunch.CalendarReasonInjective | src/mobile_world/tasks/definitions/calendar/schedule_lunch_via_sms_ask_user.py:107-116 | The reason determines the event count: equal reasons come only from equal counts. |
| ScheduleLunch.ScheduleLunchViaSmsAskUserTask.constructor | src/mobile_world/tasks/definitions/calendar/schedule_lunch_via_sms_ask_user.py:14-36 | A new task has no relevant information yet. |
| ScheduleLunch.ScheduleLunchViaSmsAskUserTask.InitializeTaskHook | src/mobile_world/tasks/definitions/calendar/schedule_lunch_via_sms_ask_user.py:38-56 | The correction hint is set whatever happens. The hook returns true exactly when the SMS injection reports success, and false when it fails or raises. |
| ScheduleLunch.ScheduleLunchViaSmsAskUserTask.IsSuccessful | src/mobile_world/tasks/definitions/calendar/schedule_lunch_via_sms_ask_user.py:58-119 | The search loop with its break returns exactly the verdict `Evaluate`. |

## Left out

- HTTP and the server:
  - Every request is an outcome the caller passes in, such as a reply datatype or a success flag. Timeouts, JSON bodies and `raise_for_status` are not modelled as such.
  - `/health` is not recorded in the request log.
  - Task metadata with `"apps": null` counts as no apps. In the source, `for app in metadata.get("apps", [])` then raises `TypeError`.
  - A `switch_suite_family` reply whose JSON is not an object is not modelled. In the source it raises `AttributeError` at `result.get`, uncaught.
  - A screenshot reply with an OK status always yields its image. In the source, a body where `response.json()["b64_png"]` raises is one more failed attempt that the back-off retries.
  - A "result" in the ask-user reply that is a number, list or object is not modelled. `Client.StepBody` carries a string, a null or a missing key.
- Waiting:
  - The exponential back-off delays of the screenshot retry, and `time.sleep`, are time, so they are omitted. Only the attempt count and the warning per retry are kept.
- Foreign conversions:
  - Base64 and PIL image decoding are foreign libraries. The screenshot is the base64 text after the prefix strip.
  - `markdownify` is a parameter of the MCP client's calls.
- Floating point:
  - `float(...)` on the score line is left out, so `Client.ParseResultFile` keeps the score as text (`Strip` of what follows "score:").
  - As in `split("score:")[1]`, the score text stops at a second "score:" on the line. `Client.ScoreLine` states the value for a line with a single marker, anywhere on the line; a line with two or more markers is covered only by `Client.ParseResultFile` saying that a score is present.
  - The checkers' scores are the only reals, as `0.0` and `1.0`.
- Client operations with no logic beyond one request are not modelled: `reset`, `get_observation`, `get_suite_task_length`, `reinitialize_suite`, `get_task_score`, `get_task_goal`, `get_task_complexity`, `close` and `get_task_list`.
- MCP tools and plumbing:
  - MCP client plumbing is foreign (`init_mcp_clients`, `list_tools_sync`, `call_tool_sync`). The catalog is a constructor argument, and a tool call's reply is a parameter.
  - A failing tool call is modelled as `TransportError(toolName)`.
  - The action type constant lives in `models.py`, and `models.py` is not part of this model. The MCP action type is the `McpCall` action kind.
  - `list_mcp_tools` and `get_mcp_tool_info` in the information API are asynchronous fetches from MCP servers, so they are left out.
- Reflection:
  - The filesystem walk, `importlib` and `inspect.getmembers` are replaced by input lists. Their order (directory walk order, the member order of `getmembers`) is taken as given.
  - Python's set iteration order, for `task_tags` and `app_names`, is a given sequence.
  - The score file's name is abstracted into "has a score file".
- Foreign helpers:
  - `BaseTask._check_is_initialized` is an `Outcome` parameter.
  - `get_sent_email_info`, `check_sms_via_adb`, `get_calendar_events` and `controller.simulate_sms` are parameters.
  - `AGENT_CONFIGS` is a given table.
- Text:
  - Lower-casing covers the ASCII letters only. Python's full Unicode case mapping is not modelled.
  - Stripping removes the ASCII characters Python counts as white space: tab, line feed, vertical tab, form feed, carriage return, U+001C to U+001F, and space. White space outside ASCII, such as U+0085 and U+00A0, is not stripped.
  - Registry.TaskRegistry.GetTask: a lookup of an unknown name is modelled without the error it logs before raising `KeyError`. The registry's other log calls are events.
  - Log wording is omitted, as is the exception detail `{e}` inside messages. A log entry is an event value, and an error carries the fixed part of its message.
- Sorting:
  - `list.sort` in place is modelled as the value `SortBy`, an insertion sort on keys. It is proved sorted and a permutation of its input. Stability (ties keep their order) is not stated.
  - `sorted` on strings uses `StrLe`, code-point order on characters.
- Calendar:
  - The event title is only logged, so an event is its two timestamps.
  - `datetime.timestamp()` is modelled by the civil-date day count `DaysFromCivil`. It is checked only on the dates used: the epoch and 2025-10-17.
- Fields not modelled: the client's `base_url`, `device`, `step_wait_time` and `_task_metadata`, and its own `TaskRegistry` instance. None of these influence the modelled behaviour.
- Client.SuiteTaskList: its own contract states only the lengths. Membership is `Client.SuiteTaskListSpec`, and order follows from the body being a comprehension.
- Client.Execute: its own contract states only that the current task and the tools are unchanged. What it returns is `Client.ExecuteAnswer`.
