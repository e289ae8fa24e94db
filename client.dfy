/** The remote session client of `mobile_world.runtime.client`: a small
    state machine over "the device is initialized", "the task currently set
    up" and "the tools offered to the agent", driven by HTTP calls to the
    environment server.

    Every HTTP exchange is replaced by its outcome, given to the operation
    as a parameter: whether `/init` succeeds when it is sent, what the
    server answers on each screenshot attempt, and so on. The client keeps
    the requests it sent, in order, in `sent`, and the retry warnings the
    screenshot back-off logs in `retryWarnings`, so that contracts can say
    which calls were made. */
module Client {
  import opened Outcomes
  import opened Text
  import opened Seqs

  // ------------------------------------------------------------- entities

  /** The requests the client sends, in the order sent. */
  datatype Request =
    | PostInit
    | PostSuiteSwitch(target: string)
    | GetScreenshot
    | PostStep
    | GetTaskList
    | PostTaskInit(task: string)
    | PostTaskTearDown(task: string)
    | GetTaskMetadata(task: string)
    | CallTool(name: string)

  /** An entry of the tool catalog; `description` stands for everything
      besides the name. */
  datatype Tool = Tool(name: string, description: string)

  /** The client's state: `initialized` is `_initialized`,
      `currentTaskType` is `_current_task_type`, `tools` is `tools`. */
  datatype Session = Session(
    initialized: bool,
    currentTaskType: Option<string>,
    tools: seq<Tool>,
    sent: seq<Request>,
    retryWarnings: seq<nat>)

  /** The state `__init__` leaves. */
  const NewSession := Session(false, None, [], [], [])

  /** What an action is, as far as the client tells actions apart. */
  datatype ActionKind = AskUser | McpCall | OtherKind

  datatype Action = Action(kind: ActionKind, toolName: string)

  /** A tool call's result; `text` is its "text" key, `content` stands for
      the other keys. */
  datatype ToolCall = ToolCall(text: Option<string>, content: string)

  datatype Observation = Observation(screenshot: string, askUserResponse: Option<string>, toolCall: Option<ToolCall>)

  /** The `Response(status, message)` record. */
  datatype Response = Response(status: string, message: string)

  // --------------------------------------------------- _ensure_initialized

  /** `_ensure_initialized`: posts `/init` only while not initialized, and
      becomes initialized only when that post succeeds. */
  function EnsureInit(s: Session, initOk: bool): (r: (Session, Outcome))
    ensures s.initialized ==> r == (s, Pass)
    ensures !s.initialized ==> r.0.sent == s.sent + [PostInit]
    ensures r.0.initialized <==> s.initialized || initOk
    ensures r.1 == Pass <==> r.0.initialized
    ensures r.0.currentTaskType == s.currentTaskType && r.0.tools == s.tools && r.0.retryWarnings == s.retryWarnings
  {
    if s.initialized then (s, Pass)
    else if initOk then (s.(initialized := true, sent := s.sent + [PostInit]), Pass)
    else (s.(sent := s.sent + [PostInit]), Fail(TransportError("/init")))
  }

  /** Once initialized, a second call sends nothing and changes nothing. */
  lemma EnsureInitIdempotent(s: Session, first: bool, second: bool)
    requires EnsureInit(s, first).1 == Pass
    ensures EnsureInit(EnsureInit(s, first).0, second) == (EnsureInit(s, first).0, Pass)
  {
  }

  // --------------------------------------------------- switch_suite_family

  /** The server's answer to the suite switch: unreachable (or an error
      status, or a body that is not JSON), or the decoded result. */
  datatype SwitchReply =
    | SwitchUnreachable
    | SwitchResult(switched: bool, avdName: Option<string>, deviceId: Option<string>)

  function SwitchError(target: string): Error {
    RuntimeError("Failed to switch to suite_family " + target)
  }

  /** `switch_suite_family`. */
  function Switch(s: Session, target: string, reply: SwitchReply): (Session, Result<SwitchReply>) {
    var s1 := s.(sent := s.sent + [PostSuiteSwitch(target)]);
    match reply
    case SwitchUnreachable => (s1, Err(SwitchError(target)))
    case SwitchResult(switched, _, _) =>
      (if switched then s1.(initialized := false) else s1, Ok(reply))
  }

  /** The switch resets `initialized` exactly when the result says it
      switched, raises a `RuntimeError` naming the target on a transport
      failure and otherwise leaves the state alone, and never touches the
      current task. */
  lemma SwitchSpec(s: Session, target: string, reply: SwitchReply)
    ensures var (s', r) := Switch(s, target, reply);
      && s'.sent == s.sent + [PostSuiteSwitch(target)]
      && s'.currentTaskType == s.currentTaskType
      && s'.tools == s.tools && s'.retryWarnings == s.retryWarnings
      && (r.Ok? ==> r.value == reply && (s'.initialized <==> s.initialized && !reply.switched))
      && (r.Err? <==> reply.SwitchUnreachable?)
      && (r.Err? ==> r.error.RuntimeError? && Contains(r.error.message, target) && s'.initialized == s.initialized)
  {
    ContainsInfix("Failed to switch to suite_family ", target, "");
    assert "Failed to switch to suite_family " + target + "" == "Failed to switch to suite_family " + target;
  }

  /** After a switch that happened, the next lazily initialized call sends a
      fresh `/init`. */
  lemma SwitchThenInit(s: Session, target: string, avd: Option<string>, device: Option<string>, initOk: bool)
    ensures var s' := Switch(s, target, SwitchResult(true, avd, device)).0;
      EnsureInit(s', initOk).0.sent == s.sent + [PostSuiteSwitch(target), PostInit]
  {
  }

  // ------------------------------------------------------- get_screenshot

  /** `backoff.on_exception(..., max_tries=3)`. */
  const MaxTries: nat := 3

  /** The server's answer to one screenshot request. */
  datatype ShotReply =
    | ShotUnreachable
    | ShotNotOk
    | ShotOk(b64: string)

  /** What one attempt meets: whether `/init` would succeed if sent, and the
      screenshot answer. */
  datatype ShotTry = ShotTry(initOk: bool, reply: ShotReply)

  /** The attempts the server answers are listed; beyond them it is
      unreachable. */
  function TryAt(tries: seq<ShotTry>, k: nat): ShotTry {
    if k < |tries| then tries[k] else ShotTry(false, ShotUnreachable)
  }

  /** `_base64_to_pil`'s prefix strip: a data URL `data:...;base64,<payload>`
      is reduced to the text after its last comma. */
  function StripDataUrlPrefix(s: string): (r: string)
    ensures !Contains(r, ",")
    ensures !Contains(s, ",") ==> r == s
    ensures Contains(s, ",") ==> exists p :: s == p + "," + r
  {
    if Contains(s, ",") then LastSegment(s, ",") else s
  }

  /** One undecorated call of `get_screenshot`. */
  function ShotAttempt(s: Session, t: ShotTry): (Session, Result<string>) {
    var (s1, o) := EnsureInit(s, t.initOk);
    if o.Fail? then (s1, Err(o.error))
    else
      var s2 := s1.(sent := s1.sent + [GetScreenshot]);
      match t.reply
      case ShotUnreachable => (s2, Err(TransportError("/screenshot")))
      case ShotNotOk => (s2, Err(RuntimeError("Failed to get screenshot")))
      case ShotOk(b64) => (s2, Ok(StripDataUrlPrefix(b64)))
  }

  /** An attempt succeeds from the given initialization state. */
  predicate AttemptOk(initialized: bool, t: ShotTry) {
    (initialized || t.initOk) && t.reply.ShotOk?
  }

  /** Attempts `k` onwards: a failed attempt that is not the last logs a
      warning numbered by its try and is retried. */
  function RetryFrom(s: Session, tries: seq<ShotTry>, k: nat): (Session, Result<string>)
    requires k < MaxTries
    decreases MaxTries - k
  {
    var (s1, r) := ShotAttempt(s, TryAt(tries, k));
    if r.Ok? || k == MaxTries - 1 then (s1, r)
    else RetryFrom(s1.(retryWarnings := s1.retryWarnings + [k + 1]), tries, k + 1)
  }

  /** `get_screenshot` with its back-off decorator. */
  function Screenshot(s: Session, tries: seq<ShotTry>): (Session, Result<string>) {
    RetryFrom(s, tries, 0)
  }

  /** Whether the device is initialized when attempt `j` starts, for a run
      of attempts that started at `k`. */
  function InitializedAt(initialized: bool, tries: seq<ShotTry>, k: nat, j: nat): bool
    decreases j
  {
    if j <= k then initialized
    else InitializedAt(initialized, tries, k, j - 1) || TryAt(tries, j - 1).initOk
  }

  lemma {:induction false} InitializedAtShift(initialized: bool, tries: seq<ShotTry>, k: nat, j: nat)
    requires k < j
    ensures InitializedAt(initialized || TryAt(tries, k).initOk, tries, k + 1, j) == InitializedAt(initialized, tries, k, j)
    decreases j
  {
    if j > k + 1 {
      InitializedAtShift(initialized, tries, k, j - 1);
    }
  }

  /** The retry succeeds exactly when one of the remaining attempts
      succeeds from the initialization state it starts in. */
  lemma {:induction false} RetrySucceedsIff(s: Session, tries: seq<ShotTry>, k: nat)
    requires k < MaxTries
    ensures RetryFrom(s, tries, k).1.Ok? <==>
      exists j :: k <= j < MaxTries && AttemptOk(InitializedAt(s.initialized, tries, k, j), TryAt(tries, j))
    decreases MaxTries - k
  {
    var t := TryAt(tries, k);
    var (s1, r) := ShotAttempt(s, t);
    assert r.Ok? <==> AttemptOk(s.initialized, t);
    assert InitializedAt(s.initialized, tries, k, k) == s.initialized;
    if !r.Ok? && k < MaxTries - 1 {
      var s2 := s1.(retryWarnings := s1.retryWarnings + [k + 1]);
      assert s2.initialized == (s.initialized || t.initOk);
      RetrySucceedsIff(s2, tries, k + 1);
      forall j | k + 1 <= j < MaxTries
        ensures InitializedAt(s2.initialized, tries, k + 1, j) == InitializedAt(s.initialized, tries, k, j)
      {
        InitializedAtShift(s.initialized, tries, k, j);
      }
    }
  }

  /** The back-off makes at most `MaxTries` screenshot requests and logs a
      warning for every failed attempt before the last. */
  lemma RetryBounded(s: Session, tries: seq<ShotTry>, k: nat)
    requires k < MaxTries
    ensures var (s', r) := RetryFrom(s, tries, k);
      && CountIf(s'.sent, IsScreenshotRequest) <= CountIf(s.sent, IsScreenshotRequest) + (MaxTries - k)
      && |s.retryWarnings| <= |s'.retryWarnings| <= |s.retryWarnings| + (MaxTries - 1 - k)
      && (r.Err? ==> |s'.retryWarnings| == |s.retryWarnings| + (MaxTries - 1 - k))
  {
    RetrySends(s, tries, k);
    RetryWarnings(s, tries, k);
  }

  lemma {:induction false} RetrySends(s: Session, tries: seq<ShotTry>, k: nat)
    requires k < MaxTries
    ensures CountIf(RetryFrom(s, tries, k).0.sent, IsScreenshotRequest) <= CountIf(s.sent, IsScreenshotRequest) + (MaxTries - k)
    decreases MaxTries - k
  {
    var p := ShotAttempt(s, TryAt(tries, k));
    ShotAttemptSends(s, TryAt(tries, k));
    if !(p.1.Ok? || k == MaxTries - 1) {
      RetrySends(p.0.(retryWarnings := p.0.retryWarnings + [k + 1]), tries, k + 1);
    }
  }

  lemma {:induction false} RetryWarnings(s: Session, tries: seq<ShotTry>, k: nat)
    requires k < MaxTries
    ensures var (s', r) := RetryFrom(s, tries, k);
      && |s.retryWarnings| <= |s'.retryWarnings| <= |s.retryWarnings| + (MaxTries - 1 - k)
      && (r.Err? ==> |s'.retryWarnings| == |s.retryWarnings| + (MaxTries - 1 - k))
    decreases MaxTries - k
  {
    var p := ShotAttempt(s, TryAt(tries, k));
    assert p.0.retryWarnings == s.retryWarnings;
    if !(p.1.Ok? || k == MaxTries - 1) {
      RetryWarnings(p.0.(retryWarnings := p.0.retryWarnings + [k + 1]), tries, k + 1);
    }
  }

  /** One attempt sends at most one screenshot request. */
  lemma ShotAttemptSends(s: Session, t: ShotTry)
    ensures CountIf(ShotAttempt(s, t).0.sent, IsScreenshotRequest) <= CountIf(s.sent, IsScreenshotRequest) + 1
  {
    var (s0, o) := EnsureInit(s, t.initOk);
    if !s.initialized {
      assert s0.sent[..|s0.sent| - 1] == s.sent;
    }
    if o.Pass? {
      var s1 := ShotAttempt(s, t).0;
      assert s1.sent[..|s1.sent| - 1] == s0.sent;
    }
  }

  predicate IsScreenshotRequest(q: Request) {
    q == GetScreenshot
  }

  /** Two failures, then a success on the third try: the third reply's
      image comes back and two retry warnings are logged. */
  lemma FailTwiceThenSucceed(s: Session, tries: seq<ShotTry>)
    requires !AttemptOk(InitializedAt(s.initialized, tries, 0, 0), TryAt(tries, 0))
    requires !AttemptOk(InitializedAt(s.initialized, tries, 0, 1), TryAt(tries, 1))
    requires AttemptOk(InitializedAt(s.initialized, tries, 0, 2), TryAt(tries, 2))
    ensures var (s', r) := Screenshot(s, tries);
      && r == Ok(StripDataUrlPrefix(TryAt(tries, 2).reply.b64))
      && s'.retryWarnings == s.retryWarnings + [1, 2]
  {
  }

  /** Three failures: the third attempt's error comes back, after two
      retry warnings. */
  lemma FailThrice(s: Session, tries: seq<ShotTry>)
    requires forall j :: 0 <= j < MaxTries ==> !AttemptOk(InitializedAt(s.initialized, tries, 0, j), TryAt(tries, j))
    ensures var (s', r) := Screenshot(s, tries);
      && r.Err?
      && s'.retryWarnings == s.retryWarnings + [1, 2]
  {
    assert !AttemptOk(InitializedAt(s.initialized, tries, 0, 0), TryAt(tries, 0));
    assert !AttemptOk(InitializedAt(s.initialized, tries, 0, 1), TryAt(tries, 1));
    assert !AttemptOk(InitializedAt(s.initialized, tries, 0, 2), TryAt(tries, 2));
  }

  // ------------------------------------------------------- execute_action

  /** The body of the server's answer to `/step`, as `json.loads` sees it:
      not JSON (an empty body included), JSON that is not an object, or an
      object whose "result" key is missing (`None`), null (`Some(None)`)
      or a string. */
  datatype StepBody = NotJson | JsonNotObject | JsonObject(result: Option<Option<string>>)

  datatype StepReply = StepUnreachable | StepAnswered(body: StepBody)

  /** The ask-user answer extracted from the step response: `json.loads`
      raises `ValueError` on text that is not JSON, `.get` raises
      `AttributeError` on JSON that is not an object, and a missing
      "result" defaults to "". */
  function AskUserAnswer(kind: ActionKind, body: StepBody): (r: Result<Option<string>>)
    ensures kind != AskUser ==> r == Ok(None)
    ensures r.Err? <==> kind == AskUser && !body.JsonObject?
    ensures kind == AskUser && body.NotJson? ==> r.Err? && r.error.ValueError?
    ensures kind == AskUser && body.JsonNotObject? ==> r.Err? && r.error.AttributeError?
    ensures (r.Ok? && r.value.Some?) <==> kind == AskUser && body.JsonObject? && body.result != Some(None)
    ensures kind == AskUser && body == JsonObject(None) ==> r == Ok(Some(""))
    ensures kind == AskUser && body.JsonObject? && body.result.Some? ==> r == Ok(body.result.value)
  {
    if kind != AskUser then Ok(None)
    else match body
      case NotJson => Err(ValueError("step response is not JSON"))
      case JsonNotObject => Err(AttributeError("get"))
      case JsonObject(result) => Ok(result.GetOr(Some("")))
  }

  /** `AndroidEnvClient.execute_action`: the step's status is not checked;
      the screenshot is taken before the answer is decoded. */
  function Execute(s: Session, action: Action, initOk: bool, step: StepReply, tries: seq<ShotTry>): (r: (Session, Result<Observation>))
    ensures r.0.currentTaskType == s.currentTaskType && r.0.tools == s.tools
  {
    var (s1, o) := EnsureInit(s, initOk);
    if o.Fail? then (s1, Err(o.error))
    else
      var s2 := s1.(sent := s1.sent + [PostStep]);
      match step
      case StepUnreachable => (s2, Err(TransportError("/step")))
      case StepAnswered(body) =>
        var (s3, shot) := Screenshot(s2, tries);
        if shot.Err? then (s3, Err(shot.error))
        else
          var answer := AskUserAnswer(action.kind, body);
          if answer.Err? then (s3, Err(answer.error))
          else (s3, Ok(Observation(shot.value, answer.value, None)))
  }

  /** A successful step carries the ask-user answer exactly for an ask-user
      action whose response is a JSON object with a non-null "result" (""
      when the key is missing), and no tool call. An ask-user action whose
      response is not a JSON object fails after the screenshot. */
  lemma ExecuteAnswer(s: Session, action: Action, initOk: bool, step: StepReply, tries: seq<ShotTry>)
    ensures var r := Execute(s, action, initOk, step, tries).1;
      && (r.Ok? ==> r.value.toolCall.None?)
      && (r.Ok? ==> (r.value.askUserResponse.Some? <==>
            action.kind == AskUser && step.body.JsonObject? && step.body.result != Some(None)))
      && (r.Ok? && r.value.askUserResponse.Some? ==> r.value.askUserResponse.value == step.body.result.GetOr(Some("")).value)
      && (r.Ok? && action.kind == AskUser ==> step.body.JsonObject?)
      && (r.Ok? ==> step.StepAnswered? && Screenshot(EnsureInit(s, initOk).0.(sent := EnsureInit(s, initOk).0.sent + [PostStep]), tries).1 == Ok(r.value.screenshot))
  {
  }

  // -------------------------------------------------- get_suite_task_list

  /** An entry of the server's task list. */
  datatype TaskEntry = TaskEntry(name: string, tags: seq<string>)

  /** The tag of tasks that need MCP tools. */
  const McpTag := "agent-mcp"

  function Listable(enableMcp: bool): TaskEntry -> bool {
    (e: TaskEntry) => enableMcp || McpTag !in e.tags
  }

  /** The names `get_suite_task_list` returns, in the server's order. */
  function SuiteTaskList(entries: seq<TaskEntry>, enableMcp: bool): (r: seq<string>)
    ensures |r| <= |entries|
    ensures enableMcp ==> |r| == |entries|
  {
    if enableMcp then FilterAll(entries, Listable(true)); Map(Filter(entries, Listable(enableMcp)), (e: TaskEntry) => e.name)
    else Map(Filter(entries, Listable(enableMcp)), (e: TaskEntry) => e.name)
  }

  /** A name is listed exactly when some entry carries it and, unless MCP
      is enabled, that entry lacks the `agent-mcp` tag. */
  lemma SuiteTaskListSpec(entries: seq<TaskEntry>, enableMcp: bool, n: string)
    ensures n in SuiteTaskList(entries, enableMcp) <==>
      exists i :: 0 <= i < |entries| && entries[i].name == n && (enableMcp || McpTag !in entries[i].tags)
  {
    var kept := Filter(entries, Listable(enableMcp));
    var r := Map(kept, (e: TaskEntry) => e.name);
    if n in r {
      var k :| 0 <= k < |r| && r[k] == n;
      assert kept[k] in entries && Listable(enableMcp)(kept[k]);
      var i :| 0 <= i < |entries| && entries[i] == kept[k];
      assert entries[i].name == n;
    }
    if exists i :: 0 <= i < |entries| && entries[i].name == n && (enableMcp || McpTag !in entries[i].tags) {
      var i :| 0 <= i < |entries| && entries[i].name == n && (enableMcp || McpTag !in entries[i].tags);
      assert Listable(enableMcp)(entries[i]);
      assert entries[i] in kept;
      var k :| 0 <= k < |kept| && kept[k] == entries[i];
      assert r[k] == n;
    }
  }

  /** `get_suite_task_list`; `reply` is the decoded list, or `None` when the
      request fails or its status is an error. */
  function SuiteList(s: Session, enableMcp: bool, initOk: bool, reply: Option<seq<TaskEntry>>): (Session, Result<seq<string>>) {
    var (s1, o) := EnsureInit(s, initOk);
    if o.Fail? then (s1, Err(o.error))
    else
      var s2 := s1.(sent := s1.sent + [GetTaskList]);
      match reply
      case None => (s2, Err(TransportError("/task/list")))
      case Some(entries) => (s2, Ok(SuiteTaskList(entries, enableMcp)))
  }

  // ------------------------------------------ initialize_task, tear_down_task

  const InitTaskHead := "Failed to initialize task "

  function InitTaskError(name: string): Error {
    RuntimeError(InitTaskHead + name)
  }

  /** The initialization error names the task. */
  lemma InitTaskErrorNames(name: string)
    ensures InitTaskError(name).RuntimeError? && Contains(InitTaskError(name).message, name)
  {
    ContainsInfix(InitTaskHead, name, "");
    assert InitTaskHead + name + "" == InitTaskHead + name;
  }

  /** `initialize_task`: `taskInitOk` is the outcome of the `/task/init`
      post. */
  function TaskInitialization(s: Session, name: string, initOk: bool, taskInitOk: bool, tries: seq<ShotTry>): (Session, Result<Observation>) {
    var (s1, o) := EnsureInit(s, initOk);
    if o.Fail? then (s1, Err(o.error))
    else
      var s2 := s1.(sent := s1.sent + [PostTaskInit(name)]);
      if !taskInitOk then (s2, Err(InitTaskError(name)))
      else
        var (s3, shot) := Screenshot(s2.(currentTaskType := Some(name)), tries);
        if shot.Err? then (s3, Err(InitTaskError(name)))
        else (s3, Ok(Observation(shot.value, None, None)))
  }

  /** The current task becomes `name` exactly when the `/task/init` post
      succeeds, even if the screenshot after it fails; every failure past
      the lazy initialization is a `RuntimeError` naming the task. */
  lemma InitializeTaskSpec(s: Session, name: string, initOk: bool, taskInitOk: bool, tries: seq<ShotTry>)
    ensures var (s', r) := TaskInitialization(s, name, initOk, taskInitOk, tries);
      && (EnsureInit(s, initOk).1.Fail? ==> (s', r) == (EnsureInit(s, initOk).0, Err(EnsureInit(s, initOk).1.error)))
      && (EnsureInit(s, initOk).1.Pass? ==>
            && (taskInitOk ==> s'.currentTaskType == Some(name))
            && (!taskInitOk ==> s'.currentTaskType == s.currentTaskType && r.Err?)
            && (r.Err? ==> r.error.RuntimeError? && Contains(r.error.message, name)))
      && (r.Ok? ==> s'.currentTaskType == Some(name) && r.value.askUserResponse.None? && r.value.toolCall.None?)
      && s'.tools == s.tools
  {
    InitTaskErrorNames(name);
    var (s1, o) := EnsureInit(s, initOk);
    if o.Pass? && taskInitOk {
      ScreenshotKeepsSent(s1.(sent := s1.sent + [PostTaskInit(name)]).(currentTaskType := Some(name)), tries);
    }
  }

  /** `tear_down_task`: `tearDownOk` is the outcome of the `/task/tear_down`
      post. */
  function TearDown(s: Session, name: string, initOk: bool, tearDownOk: bool): (Session, Result<Response>) {
    var (s1, o) := EnsureInit(s, initOk);
    if o.Fail? then (s1, Err(o.error))
    else
      var s2 := s1.(sent := s1.sent + [PostTaskTearDown(name)]);
      if tearDownOk then (s2.(currentTaskType := None), Ok(Response("success", "Task " + name + " torn down")))
      else (s2, Ok(Response("error", "Failed to tear down task " + name)))
  }

  /** Past the lazy initialization the tear-down never raises: success
      clears the current task, failure reports "error" naming the task and
      keeps it. */
  lemma TearDownSpec(s: Session, name: string, initOk: bool, tearDownOk: bool)
    ensures var (s', r) := TearDown(s, name, initOk, tearDownOk);
      && (r.Err? <==> EnsureInit(s, initOk).1.Fail?)
      && (r.Ok? && tearDownOk ==> r.value.status == "success" && s'.currentTaskType == None)
      && (r.Ok? && !tearDownOk ==> r.value.status == "error" && s'.currentTaskType == s.currentTaskType)
      && (r.Ok? ==> Contains(r.value.message, name))
      && s'.tools == s.tools
  {
    ContainsInfix("Task ", name, " torn down");
    ContainsInfix("Failed to tear down task ", name, "");
    assert "Failed to tear down task " + name + "" == "Failed to tear down task " + name;
  }

  // ------------------------------------------------------- get_task_metadata

  /** The task metadata `reset_tools` reads: "tags" (its absence raises
      `KeyError`) and "apps" (absent means none). */
  datatype TaskMetadata = TaskMetadata(tags: Option<seq<string>>, apps: Option<seq<string>>)

  function GetMetadata(s: Session, name: string, initOk: bool, reply: Option<TaskMetadata>): (Session, Result<TaskMetadata>) {
    var (s1, o) := EnsureInit(s, initOk);
    if o.Fail? then (s1, Err(o.error))
    else
      var s2 := s1.(sent := s1.sent + [GetTaskMetadata(name)]);
      match reply
      case None => (s2, Err(TransportError("/task/metadata")))
      case Some(m) => (s2, Ok(m))
  }

  // ------------------------------------------------------------------ health

  datatype HealthReply = HealthUnreachable | HealthJson(ok: Option<bool>)

  /** `health`: any failure, and a missing "ok", reads as unhealthy. */
  function Health(reply: HealthReply): (healthy: bool)
    ensures healthy <==> reply == HealthJson(Some(true))
  {
    match reply
    case HealthUnreachable => false
    case HealthJson(ok) => ok.GetOr(false)
  }

  /** A data URL loses exactly its header. */
  lemma StripDataUrl(header: string, payload: string)
    requires !Contains(payload, ",")
    ensures StripDataUrlPrefix(header + "," + payload) == payload
  {
    ContainsInfix(header, ",", payload);
    LastSegmentAfter(header, ",", payload);
  }

  /** Stripping twice is stripping once. */
  lemma StripDataUrlIdempotent(s: string)
    ensures StripDataUrlPrefix(StripDataUrlPrefix(s)) == StripDataUrlPrefix(s)
  {
  }

  // --------------------------------------------------------- reset_tools

  /** The filter an MCP app name contributes. */
  const McpMarker := "MCP"

  predicate IsMcpApp(app: string) {
    Contains(app, McpMarker)
  }

  /** The filters `reset_tools` derives from an MCP task's apps: the last
      "-" segment of each app whose name contains "MCP", in order. */
  function McpFilters(apps: seq<string>): (r: seq<string>)
    ensures |r| <= |apps|
    decreases |apps|
  {
    if apps == [] then []
    else
      var app := apps[|apps| - 1];
      McpFilters(apps[..|apps| - 1]) + (if IsMcpApp(app) then [LastSegment(app, "-")] else [])
  }

  /** `f` is the last "-" segment of an MCP app among `apps`. */
  ghost predicate FromMcpApp(apps: seq<string>, f: string) {
    exists i :: 0 <= i < |apps| && IsMcpApp(apps[i]) && f == LastSegment(apps[i], "-")
  }

  /** Every derived filter is the "-"-free last segment of an MCP app. */
  lemma {:induction false} McpFiltersSound(apps: seq<string>)
    ensures forall k :: 0 <= k < |McpFilters(apps)| ==> FromMcpApp(apps, McpFilters(apps)[k])
    ensures forall k :: 0 <= k < |McpFilters(apps)| ==> !Contains(McpFilters(apps)[k], "-")
    decreases |apps|
  {
    if apps != [] {
      var init := apps[..|apps| - 1];
      var app := apps[|apps| - 1];
      McpFiltersSound(init);
      var r0 := McpFilters(init);
      var r := McpFilters(apps);
      forall k | 0 <= k < |r|
        ensures FromMcpApp(apps, r[k])
      {
        if k < |r0| {
          assert r[k] == r0[k] && FromMcpApp(init, r0[k]);
          var i :| 0 <= i < |init| && IsMcpApp(init[i]) && r0[k] == LastSegment(init[i], "-");
          assert apps[i] == init[i];
        } else {
          assert IsMcpApp(apps[|apps| - 1]) && r[k] == LastSegment(apps[|apps| - 1], "-");
        }
      }
    }
  }

  /** Every MCP app contributes its last segment; without MCP apps there is
      no filter. */
  lemma {:induction false} McpFiltersComplete(apps: seq<string>)
    ensures forall i :: 0 <= i < |apps| && IsMcpApp(apps[i]) ==> LastSegment(apps[i], "-") in McpFilters(apps)
    ensures (forall i :: 0 <= i < |apps| ==> !IsMcpApp(apps[i])) ==> McpFilters(apps) == []
    decreases |apps|
  {
    if apps != [] {
      var init := apps[..|apps| - 1];
      McpFiltersComplete(init);
      assert forall i :: 0 <= i < |init| ==> init[i] == apps[i];
    }
  }

  /** `any(f.lower() in name.lower() for f in filters)`. */
  function AnyFilterMatches(filters: seq<string>, name: string): (r: bool)
    ensures r <==> exists k :: 0 <= k < |filters| && Contains(Lower(name), Lower(filters[k]))
    decreases |filters|
  {
    if filters == [] then false
    else
      var init := filters[..|filters| - 1];
      assert forall k :: 0 <= k < |init| ==> init[k] == filters[k];
      AnyFilterMatches(init, name) || Contains(Lower(name), Lower(filters[|filters| - 1]))
  }

  function ToolMatcher(filters: seq<string>): Tool -> bool {
    (t: Tool) => AnyFilterMatches(filters, t.name)
  }

  /** The tools of the catalog that some filter names, in catalog order. */
  function ScopeTools(complete: seq<Tool>, filters: seq<string>): (r: seq<Tool>)
    ensures forall t :: t in r <==> t in complete && AnyFilterMatches(filters, t.name)
    ensures filters == [] ==> r == []
  {
    if filters == [] then FilterNone(complete, ToolMatcher(filters)); Filter(complete, ToolMatcher(filters))
    else Filter(complete, ToolMatcher(filters))
  }

  /** The scoped tools keep the catalog's order: scoping a concatenation
      is concatenating the scoped parts. */
  lemma ScopeToolsOrder(a: seq<Tool>, b: seq<Tool>, filters: seq<string>)
    ensures ScopeTools(a + b, filters) == ScopeTools(a, filters) + ScopeTools(b, filters)
  {
    FilterConcat(a, b, ToolMatcher(filters));
  }

  /** An empty filter, such as the one an app named "...-" contributes,
      keeps the whole catalog. */
  lemma ScopeToolsEmptyFilter(complete: seq<Tool>, filters: seq<string>)
    requires "" in filters
    ensures ScopeTools(complete, filters) == complete
  {
    var k :| 0 <= k < |filters| && filters[k] == "";
    forall i | 0 <= i < |complete|
      ensures ToolMatcher(filters)(complete[i])
    {
      ContainsEmpty(Lower(complete[i].name));
      assert Lower(filters[k]) == "";
    }
    FilterAll(complete, ToolMatcher(filters));
  }

  function NoToolsMessage(taskType: Option<string>): string {
    "No tools found for task " + (if taskType.Some? then taskType.value else "None")
  }

  /** `reset_tools`, over the catalog `complete`. */
  function ToolReset(s: Session, complete: seq<Tool>, filters: Option<seq<string>>, taskType: Option<string>,
                      initOk: bool, metadata: Option<TaskMetadata>): (Session, Outcome)
  {
    if taskType.None? then
      if filters.None? then (s, Pass) else (s.(tools := ScopeTools(complete, filters.value)), Pass)
    else
      var (s1, md) := GetMetadata(s, taskType.value, initOk, metadata);
      if md.Err? then (s1, Fail(md.error))
      else if md.value.tags.None? then (s1, Fail(KeyError("tags")))
      else if McpTag in md.value.tags.value then
        var tools := ScopeTools(complete, McpFilters(md.value.apps.GetOr([])));
        (s1.(tools := tools), if tools == [] then Fail(AssertionError(NoToolsMessage(taskType))) else Pass)
      else (s1.(tools := []), Pass)
  }

  /** Without a task and without filters nothing changes. */
  lemma ResetToolsNothing(s: Session, complete: seq<Tool>, initOk: bool, metadata: Option<TaskMetadata>)
    ensures ToolReset(s, complete, None, None, initOk, metadata) == (s, Pass)
  {
  }

  /** Without a task, explicit filters scope the catalog and the assertion
      holds even when nothing matches. */
  lemma ResetToolsExplicit(s: Session, complete: seq<Tool>, filters: seq<string>, initOk: bool, metadata: Option<TaskMetadata>)
    ensures var (s', o) := ToolReset(s, complete, Some(filters), None, initOk, metadata);
      s' == s.(tools := ScopeTools(complete, filters)) && o == Pass
  {
  }

  /** A task without the `agent-mcp` tag gets no tools, whatever filters
      were passed, and the assertion holds. */
  lemma ResetToolsPlainTask(s: Session, complete: seq<Tool>, filters: Option<seq<string>>, name: string,
                            initOk: bool, m: TaskMetadata)
    requires EnsureInit(s, initOk).1.Pass?
    requires m.tags.Some? && McpTag !in m.tags.value
    ensures var (s', o) := ToolReset(s, complete, filters, Some(name), initOk, Some(m));
      s'.tools == [] && o == Pass && s'.currentTaskType == s.currentTaskType
  {
  }

  /** An `agent-mcp` task is scoped to the catalog entries some derived
      filter names, and the assertion fails exactly when there are none. */
  lemma ResetToolsMcpTask(s: Session, complete: seq<Tool>, filters: Option<seq<string>>, name: string,
                          initOk: bool, m: TaskMetadata)
    requires EnsureInit(s, initOk).1.Pass?
    requires m.tags.Some? && McpTag in m.tags.value
    ensures var (s', o) := ToolReset(s, complete, filters, Some(name), initOk, Some(m));
      && s'.tools == ScopeTools(complete, McpFilters(m.apps.GetOr([])))
      && (o == Pass <==> s'.tools != [])
      && (o.Fail? ==> o.error == AssertionError("No tools found for task " + name))
  {
  }

  /** An `agent-mcp` task none of whose apps is named with "MCP" derives no
      filter, gets no tools, and fails the assertion. */
  lemma ResetToolsMcpTaskWithoutMcpApps(s: Session, complete: seq<Tool>, filters: Option<seq<string>>, name: string,
                                        initOk: bool, m: TaskMetadata)
    requires EnsureInit(s, initOk).1.Pass?
    requires m.tags.Some? && McpTag in m.tags.value
    requires forall i :: 0 <= i < |m.apps.GetOr([])| ==> !IsMcpApp(m.apps.GetOr([])[i])
    ensures var (s', o) := ToolReset(s, complete, filters, Some(name), initOk, Some(m));
      s'.tools == [] && o.Fail? && o.error.AssertionError?
  {
    McpFiltersComplete(m.apps.GetOr([]));
  }

  /** An app named "MCP-<service>" contributes the filter "<service>". */
  lemma McpAppFilter(service: string)
    requires !Contains(service, "-")
    ensures McpFilters(["MCP-" + service]) == [service]
  {
    var app := "MCP-" + service;
    assert IsPrefix(McpMarker, app);
    assert app == "MCP" + "-" + service;
    LastSegmentAfter("MCP", "-", service);
    assert ["MCP-" + service][..0] == [];
  }

  // ------------------------------------------------- _truncate_tool_call

  const HtmlDoctype := "<!DOCTYPE html>"

  /** `_truncate_tool_call`: an HTML text is converted by `markdownify`
      (foreign, a parameter); anything else passes through unchanged. */
  function TruncateToolCall(call: Option<ToolCall>, markdownify: string -> string): (r: Option<ToolCall>)
    ensures r.None? <==> call.None?
    ensures r.Some? ==> r.value.content == call.value.content && (r.value.text.None? <==> call.value.text.None?)
    ensures call.Some? && call.value.text.Some? && IsPrefix(HtmlDoctype, call.value.text.value) ==>
      r.value.text == Some(markdownify(call.value.text.value))
    ensures call.Some? && (call.value.text.None? || !IsPrefix(HtmlDoctype, call.value.text.value)) ==> r == call
  {
    match call
    case None => None
    case Some(c) =>
      if c.text.Some? && IsPrefix(HtmlDoctype, c.text.value) then Some(c.(text := Some(markdownify(c.text.value))))
      else call
  }

  // ------------------------------------------- AndroidMCPEnvClient.execute_action

  /** The outcome of `call_tool_sync`. */
  datatype ToolReply = ToolFailed | ToolAnswered(call: Option<ToolCall>)

  /** `AndroidMCPEnvClient.execute_action`, over the tool names of
      `tool_map`. */
  function McpExecute(s: Session, toolNames: set<string>, action: Action, initOk: bool, step: StepReply,
                      tries: seq<ShotTry>, toolReply: ToolReply, markdownify: string -> string): (Session, Result<Observation>)
  {
    if action.kind != McpCall then Execute(s, action, initOk, step, tries)
    else if action.toolName !in toolNames then (s, Err(KeyError(action.toolName)))
    else
      var s1 := s.(sent := s.sent + [CallTool(action.toolName)]);
      match toolReply
      case ToolFailed => (s1, Err(TransportError(action.toolName)))
      case ToolAnswered(call) =>
        var (s2, shot) := Screenshot(s1, tries);
        if shot.Err? then (s2, Err(shot.error))
        else (s2, Ok(Observation(shot.value, None, TruncateToolCall(call, markdownify))))
  }

  /** MCP actions go to the tool that `tool_map` names, and an unknown name
      raises `KeyError` before anything is sent; every other action is the
      plain client's. */
  lemma McpExecuteRouting(s: Session, toolNames: set<string>, action: Action, initOk: bool, step: StepReply,
                          tries: seq<ShotTry>, toolReply: ToolReply, markdownify: string -> string)
    ensures var (s', r) := McpExecute(s, toolNames, action, initOk, step, tries, toolReply, markdownify);
      && (action.kind != McpCall ==> (s', r) == Execute(s, action, initOk, step, tries))
      && (action.kind == McpCall && action.toolName !in toolNames ==> s' == s && r == Err(KeyError(action.toolName)))
      && s'.currentTaskType == s.currentTaskType && s'.tools == s.tools
  {
    if action.kind == McpCall && action.toolName in toolNames && toolReply.ToolAnswered? {
      ScreenshotKeepsSent(s.(sent := s.sent + [CallTool(action.toolName)]), tries);
    }
  }

  /** A successful MCP action calls the tool first, never posts `/step`,
      and returns the tool's (possibly converted) result with no ask-user
      answer. */
  lemma McpExecuteToolCall(s: Session, toolNames: set<string>, action: Action, initOk: bool, step: StepReply,
                           tries: seq<ShotTry>, toolReply: ToolReply, markdownify: string -> string)
    requires action.kind == McpCall
    ensures var (s', r) := McpExecute(s, toolNames, action, initOk, step, tries, toolReply, markdownify);
      r.Ok? ==>
        && r.value.askUserResponse.None?
        && toolReply.ToolAnswered?
        && r.value.toolCall == TruncateToolCall(toolReply.call, markdownify)
        && s'.sent[|s.sent|] == CallTool(action.toolName)
  {
    if action.toolName in toolNames && toolReply.ToolAnswered? {
      var s1 := s.(sent := s.sent + [CallTool(action.toolName)]);
      ScreenshotKeepsSent(s1, tries);
      assert s1.sent[|s.sent|] == CallTool(action.toolName);
    }
  }

  /** The screenshot only appends to the request log. */
  lemma ScreenshotKeepsSent(s: Session, tries: seq<ShotTry>)
    ensures var s' := Screenshot(s, tries).0;
      |s.sent| <= |s'.sent| && s'.sent[..|s.sent|] == s.sent
      && s'.currentTaskType == s.currentTaskType && s'.tools == s.tools
  {
    RetryKeepsSent(s, tries, 0);
  }

  lemma {:induction false} RetryKeepsSent(s: Session, tries: seq<ShotTry>, k: nat)
    requires k < MaxTries
    ensures var s' := RetryFrom(s, tries, k).0;
      |s.sent| <= |s'.sent| && s'.sent[..|s.sent|] == s.sent
      && s'.currentTaskType == s.currentTaskType && s'.tools == s.tools
    decreases MaxTries - k
  {
    var (s1, r) := ShotAttempt(s, TryAt(tries, k));
    assert s1.sent[..|s.sent|] == s.sent;
    if !r.Ok? && k < MaxTries - 1 {
      var s2 := s1.(retryWarnings := s1.retryWarnings + [k + 1]);
      RetryKeepsSent(s2, tries, k + 1);
      var s' := RetryFrom(s2, tries, k + 1).0;
      assert s'.sent[..|s.sent|] == s'.sent[..|s1.sent|][..|s.sent|];
    }
  }

  // ------------------------------------------------------------- classes

  /** `AndroidEnvClient`. */
  class AndroidEnvClient {
    var initialized: bool
    var currentTaskType: Option<string>
    var tools: seq<Tool>
    var sent: seq<Request>
    var retryWarnings: seq<nat>

    ghost function State(): Session
      reads this
    {
      Session(initialized, currentTaskType, tools, sent, retryWarnings)
    }

    constructor ()
      ensures State() == NewSession
    {
      initialized := false;
      currentTaskType := None;
      tools := [];
      sent := [];
      retryWarnings := [];
    }

    method EnsureInitialized(initOk: bool) returns (o: Outcome)
      modifies this
      ensures (State(), o) == EnsureInit(old(State()), initOk)
    {
      if !initialized {
        sent := sent + [PostInit];
        if !initOk {
          return Fail(TransportError("/init"));
        }
        initialized := true;
      }
      return Pass;
    }

    method SwitchSuiteFamily(target: string, reply: SwitchReply) returns (r: Result<SwitchReply>)
      modifies this
      ensures (State(), r) == Switch(old(State()), target, reply)
    {
      sent := sent + [PostSuiteSwitch(target)];
      if reply.SwitchUnreachable? {
        return Err(SwitchError(target));
      }
      if reply.switched {
        initialized := false;
      }
      return Ok(reply);
    }

    /** One call of the undecorated `get_screenshot`. */
    method ScreenshotAttempt(t: ShotTry) returns (r: Result<string>)
      modifies this
      ensures (State(), r) == ShotAttempt(old(State()), t)
    {
      var o := EnsureInitialized(t.initOk);
      if o.Fail? {
        return Err(o.error);
      }
      sent := sent + [Request.GetScreenshot];
      match t.reply
      case ShotUnreachable => r := Err(TransportError("/screenshot"));
      case ShotNotOk => r := Err(RuntimeError("Failed to get screenshot"));
      case ShotOk(b64) => r := Ok(StripDataUrlPrefix(b64));
    }

    /** `get_screenshot` under its back-off decorator. */
    method GetScreenshot(tries: seq<ShotTry>) returns (r: Result<string>)
      modifies this
      ensures (State(), r) == Screenshot(old(State()), tries)
    {
      var k := 0;
      while true
        invariant k < MaxTries
        invariant RetryFrom(State(), tries, k) == Screenshot(old(State()), tries)
        decreases MaxTries - k
      {
        r := ScreenshotAttempt(TryAt(tries, k));
        if r.Ok? || k == MaxTries - 1 {
          return;
        }
        retryWarnings := retryWarnings + [k + 1];
        k := k + 1;
      }
    }

    method ExecuteAction(action: Action, initOk: bool, step: StepReply, tries: seq<ShotTry>) returns (r: Result<Observation>)
      modifies this
      ensures (State(), r) == Execute(old(State()), action, initOk, step, tries)
    {
      var o := EnsureInitialized(initOk);
      if o.Fail? {
        return Err(o.error);
      }
      sent := sent + [PostStep];
      if step.StepUnreachable? {
        return Err(TransportError("/step"));
      }
      var shot := GetScreenshot(tries);
      if shot.Err? {
        return Err(shot.error);
      }
      var answer := AskUserAnswer(action.kind, step.body);
      if answer.Err? {
        return Err(answer.error);
      }
      return Ok(Observation(shot.value, answer.value, None));
    }

    method GetSuiteTaskList(enableMcp: bool, initOk: bool, reply: Option<seq<TaskEntry>>) returns (r: Result<seq<string>>)
      modifies this
      ensures (State(), r) == SuiteList(old(State()), enableMcp, initOk, reply)
    {
      var o := EnsureInitialized(initOk);
      if o.Fail? {
        return Err(o.error);
      }
      sent := sent + [GetTaskList];
      if reply.None? {
        return Err(TransportError("/task/list"));
      }
      return Ok(SuiteTaskList(reply.value, enableMcp));
    }

    method InitializeTask(name: string, initOk: bool, taskInitOk: bool, tries: seq<ShotTry>) returns (r: Result<Observation>)
      modifies this
      ensures (State(), r) == TaskInitialization(old(State()), name, initOk, taskInitOk, tries)
    {
      var o := EnsureInitialized(initOk);
      if o.Fail? {
        return Err(o.error);
      }
      sent := sent + [PostTaskInit(name)];
      if !taskInitOk {
        return Err(InitTaskError(name));
      }
      currentTaskType := Some(name);
      var shot := GetScreenshot(tries);
      if shot.Err? {
        return Err(InitTaskError(name));
      }
      return Ok(Observation(shot.value, None, None));
    }

    method TearDownTask(name: string, initOk: bool, tearDownOk: bool) returns (r: Result<Response>)
      modifies this
      ensures (State(), r) == TearDown(old(State()), name, initOk, tearDownOk)
    {
      var o := EnsureInitialized(initOk);
      if o.Fail? {
        return Err(o.error);
      }
      sent := sent + [PostTaskTearDown(name)];
      if tearDownOk {
        currentTaskType := None;
        return Ok(Response("success", "Task " + name + " torn down"));
      }
      return Ok(Response("error", "Failed to tear down task " + name));
    }

    method GetTaskMetadata(name: string, initOk: bool, reply: Option<TaskMetadata>) returns (r: Result<TaskMetadata>)
      modifies this
      ensures (State(), r) == GetMetadata(old(State()), name, initOk, reply)
    {
      var o := EnsureInitialized(initOk);
      if o.Fail? {
        return Err(o.error);
      }
      sent := sent + [Request.GetTaskMetadata(name)];
      if reply.None? {
        return Err(TransportError("/task/metadata"));
      }
      return Ok(reply.value);
    }
  }

  /** The filter derivation loop of `reset_tools`. */
  method DeriveMcpFilters(apps: seq<string>) returns (filters: seq<string>)
    ensures filters == McpFilters(apps)
  {
    filters := [];
    for i := 0 to |apps|
      invariant filters == McpFilters(apps[..i])
    {
      assert apps[..i + 1][..i] == apps[..i];
      if IsMcpApp(apps[i]) {
        filters := filters + [LastSegment(apps[i], "-")];
      }
    }
    assert apps[..|apps|] == apps;
  }

  function ToolNames(catalog: seq<Tool>): set<string> {
    set i | 0 <= i < |catalog| :: catalog[i].name
  }

  /** `AndroidMCPEnvClient`: the plain client (`env`) plus the tool
      catalog listed at construction and the names `tool_map` routes. */
  class McpEnvClient {
    const env: AndroidEnvClient
    var completeToolSet: seq<Tool>
    var toolMap: set<string>

    /** `catalog` is what `list_tools_sync` returns. */
    constructor (catalog: seq<Tool>)
      ensures fresh(env)
      ensures env.State() == NewSession.(tools := catalog)
      ensures completeToolSet == catalog && toolMap == ToolNames(catalog)
    {
      var e := new AndroidEnvClient();
      e.tools := catalog;
      env := e;
      completeToolSet := catalog;
      toolMap := ToolNames(catalog);
    }

    method ResetTools(filters: Option<seq<string>>, taskType: Option<string>, initOk: bool, metadata: Option<TaskMetadata>)
      returns (o: Outcome)
      modifies env
      ensures (env.State(), o) == ToolReset(old(env.State()), completeToolSet, filters, taskType, initOk, metadata)
    {
      var isNotMcpTask := true;
      var chosen := filters;
      if taskType.Some? {
        var md := env.GetTaskMetadata(taskType.value, initOk, metadata);
        if md.Err? {
          return Fail(md.error);
        }
        if md.value.tags.None? {
          return Fail(KeyError("tags"));
        }
        var derived := [];
        if McpTag in md.value.tags.value {
          isNotMcpTask := false;
          derived := DeriveMcpFilters(md.value.apps.GetOr([]));
        }
        chosen := Some(derived);
      }
      if chosen.Some? {
        env.tools := ScopeTools(completeToolSet, chosen.value);
        if |env.tools| == 0 && !isNotMcpTask {
          return Fail(AssertionError(NoToolsMessage(taskType)));
        }
      }
      return Pass;
    }

    method ExecuteAction(action: Action, initOk: bool, step: StepReply, tries: seq<ShotTry>,
                         toolReply: ToolReply, markdownify: string -> string) returns (r: Result<Observation>)
      modifies env
      ensures (env.State(), r) == McpExecute(old(env.State()), toolMap, action, initOk, step, tries, toolReply, markdownify)
    {
      if action.kind != McpCall {
        r := env.ExecuteAction(action, initOk, step, tries);
        return;
      }
      if action.toolName !in toolMap {
        return Err(KeyError(action.toolName));
      }
      env.sent := env.sent + [CallTool(action.toolName)];
      if toolReply.ToolFailed? {
        return Err(TransportError(action.toolName));
      }
      var call := TruncateToolCall(toolReply.call, markdownify);
      var shot := env.GetScreenshot(tries);
      if shot.Err? {
        return Err(shot.error);
      }
      return Ok(Observation(shot.value, None, call));
    }
  }

  // ------------------------------------------- parse_result_file, scan

  const ScoreMarker := "score:"

  /** `parse_result_file` over the file's lines: the score's text (what
      `float` would parse) and the reason. */
  function ParseResultFile(lines: seq<string>): (r: (Option<string>, Option<string>))
    ensures r.0.Some? <==> |lines| > 0 && Contains(lines[0], ScoreMarker)
    ensures r.1.Some? <==> |lines| > 1
  {
    var score :=
      if |lines| > 0 && Contains(lines[0], ScoreMarker) then Some(Strip(Split(lines[0], ScoreMarker)[1])) else None;
    var reason := if |lines| > 1 then Some(Strip(lines[1])) else None;
    (score, reason)
  }

  /** A first line `prefix + "score:" + text`, where this is the first
      "score:" and `text` holds no other, yields the stripped text. */
  lemma ScoreLine(prefix: string, text: string, rest: seq<string>)
    requires IndexOf(prefix + ScoreMarker + text, ScoreMarker) == Some(|prefix|)
    requires !Contains(text, ScoreMarker)
    ensures ParseResultFile([prefix + ScoreMarker + text] + rest).0 == Some(Strip(text))
  {
    SplitAtOnlySeparator(prefix, ScoreMarker, text);
  }

  /** A line that starts with "score:" has its first marker there. */
  lemma LeadingScoreLine(text: string, rest: seq<string>)
    requires !Contains(text, ScoreMarker)
    ensures ParseResultFile([ScoreMarker + text] + rest).0 == Some(Strip(text))
  {
    ContainsInfix("", ScoreMarker, text);
    assert "" + ScoreMarker + text == ScoreMarker + text;
    ScoreLine("", text, rest);
  }

  /** The reason is the stripped second line, whatever the first holds. */
  lemma ReasonLine(first: string, second: string, rest: seq<string>)
    ensures ParseResultFile([first, second] + rest).1 == Some(Strip(second))
  {
  }

  /** A directory of the log root: its name, and the lines of its score
      file if it has one. */
  datatype LogDir = LogDir(name: string, scoreLines: Option<seq<string>>)

  const BackupMarker := "backup"

  function IsFinished(taskList: Option<seq<string>>): LogDir -> bool {
    (d: LogDir) => d.scoreLines.Some? && !Contains(d.name, BackupMarker) && (taskList.None? || d.name in taskList.value)
  }

  function FinishedDirs(listing: seq<LogDir>, taskList: Option<seq<string>>): seq<LogDir> {
    Filter(listing, IsFinished(taskList))
  }

  /** The scores of directories that have a score file, in order. */
  function Scores(ds: seq<LogDir>): (r: seq<Option<string>>)
    requires forall i :: 0 <= i < |ds| ==> ds[i].scoreLines.Some?
    ensures |r| == |ds|
  {
    seq(|ds|, i requires 0 <= i < |ds| && ds[i].scoreLines.Some? => ParseResultFile(ds[i].scoreLines.value).0)
  }

  /** A directory is scanned exactly when it has a score file, its name
      lacks "backup", and it is in the task list if one is given. */
  lemma FinishedDirsSpec(listing: seq<LogDir>, taskList: Option<seq<string>>, d: LogDir)
    ensures d in FinishedDirs(listing, taskList) <==>
      d in listing && d.scoreLines.Some? && !Contains(d.name, BackupMarker) && (taskList.None? || d.name in taskList.value)
  {
    var f := FinishedDirs(listing, taskList);
    if d in listing && IsFinished(taskList)(d) {
      var i :| 0 <= i < |listing| && listing[i] == d;
    }
    if d in f {
      var k :| 0 <= k < |f| && f[k] == d;
      assert IsFinished(taskList)(f[k]);
    }
  }

  /** `scan_finished_tasks`: `rootExists` and `listing` stand for the file
      system; the results are the parsed score texts. */
  method ScanFinishedTasks(rootExists: bool, listing: seq<LogDir>, taskList: Option<seq<string>>)
    returns (dirs: seq<string>, results: seq<Option<string>>)
    ensures |dirs| == |results|
    ensures !rootExists ==> dirs == [] && results == []
    ensures rootExists ==> dirs == Map(FinishedDirs(listing, taskList), (d: LogDir) => d.name)
    ensures rootExists ==> results == Scores(FinishedDirs(listing, taskList))
  {
    if !rootExists {
      return [], [];
    }
    var finished := FinishedDirs(listing, taskList);
    dirs := Map(finished, (d: LogDir) => d.name);
    results := [];
    for i := 0 to |finished|
      invariant |results| == i
      invariant forall k :: 0 <= k < i ==> results[k] == ParseResultFile(finished[k].scoreLines.value).0
    {
      results := results + [ParseResultFile(finished[i].scoreLines.value).0];
    }
  }
}
