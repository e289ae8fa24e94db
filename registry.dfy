/** The task registry of `mobile_world.tasks.registry`: a scan over the task
    definition files that loads each one, keeps the classes that are task
    definitions, instantiates them and indexes the instances by class name.

    The file-system walk, module loading and reflection are replaced by
    their results: the scan is given, per directory path, the `*.py` files
    found under it (in walk order), and for each file either the reason it
    could not be loaded or the classes it defines, in the order
    `inspect.getmembers` yields them. */
module Registry {
  import opened Outcomes

  // ------------------------------------------------------------- entities

  /** A task instance, reduced to the attributes other components read.
      `origin` is the file that defined its class, so two instances of
      same-named classes from different files are told apart. `goal` is ""
      when the attribute is falsy; `tags` and `appNames` are the class's
      sets in iteration order, empty when the attribute is missing or
      falsy; `attributesReadable` is false when reading `name` or `goal`
      raises. */
  datatype TaskInstance = TaskInstance(
    origin: string,
    name: string,
    goal: string,
    tags: seq<string>,
    appNames: seq<string>,
    attributesReadable: bool)

  /** What calling the class with no arguments does. */
  datatype Instantiation = Instantiates(instance: TaskInstance) | RaisesOnInstantiation

  /** A class found in a loaded module. */
  datatype ClassCandidate = ClassCandidate(
    name: string,              // the class's `__name__`
    subclassesBaseTask: bool,  // `issubclass(obj, BaseTask)`
    isBaseTask: bool,          // `obj is BaseTask`
    definedInModule: bool,     // `obj.__module__ == module.__name__`
    instantiation: Instantiation)
  {
    /** The filter a class must pass to be instantiated at all. */
    predicate IsTaskClass() {
      subclassesBaseTask && !isBaseTask && definedInModule
    }

    /** The class ends up in the registry (unless a later one replaces it). */
    predicate Registers() {
      IsTaskClass() && instantiation.Instantiates?
    }
  }

  /** The outcome of loading one file as a module. */
  datatype LoadOutcome =
    | SpecUnavailable                     // `spec_from_file_location` gives no loader
    | ExecRaises                          // an exception while creating or running the module
    | Loaded(classes: seq<ClassCandidate>)

  datatype CandidateFile = CandidateFile(path: string, fileName: string, load: LoadOutcome)

  const InitFileName := "__init__.py"

  /** The log lines the scan writes; only that they occur is modelled. */
  datatype LogEvent =
    | ScanStarted(path: string)
    | DirectoryNotFound(path: string)
    | SpecNotLoadable(file: string)
    | LoadFailed(file: string)
    | BaseTaskUnavailable
    | Overwriting(name: string, file: string)
    | InstantiationFailed(name: string, file: string)
    | ScanComplete(names: seq<string>)

  // ---------------------------------------------------------- ordered map

  /** A Python dict from task name to instance: `keys` is its iteration
      (insertion) order. */
  datatype TaskIndex = TaskIndex(keys: seq<string>, entries: map<string, TaskInstance>) {
    ghost predicate Valid() {
      && (forall i, j :: 0 <= i < j < |keys| ==> keys[i] != keys[j])
      && (forall k :: k in entries <==> k in keys)
    }

    /** `d[k] = v`: an existing key keeps its position, a new key goes last. */
    function Put(k: string, v: TaskInstance): TaskIndex {
      TaskIndex(if k in entries then keys else keys + [k], entries[k := v])
    }
  }

  const EmptyIndex := TaskIndex([], map[])

  /** Storing under a name leaves exactly one entry under it, holding the
      new instance; every other entry is untouched; an existing name keeps
      its position and a new name is appended. */
  lemma PutSpec(idx: TaskIndex, k: string, v: TaskInstance)
    requires idx.Valid()
    ensures idx.Put(k, v).Valid()
    ensures idx.Put(k, v).entries[k] == v
    ensures multiset(idx.Put(k, v).keys)[k] == 1
    ensures forall n :: n != k ==> (n in idx.Put(k, v).entries <==> n in idx.entries)
    ensures forall n :: n != k && n in idx.entries ==> idx.Put(k, v).entries[n] == idx.entries[n]
    ensures k in idx.entries ==> idx.Put(k, v).keys == idx.keys
    ensures k !in idx.entries ==> idx.Put(k, v).keys == idx.keys + [k]
  {
    var r := idx.Put(k, v);
    DistinctOnce(r.keys, k);
  }

  /** In a sequence without repeats a present element occurs once. */
  lemma {:induction false} DistinctOnce(s: seq<string>, k: string)
    requires forall i, j :: 0 <= i < j < |s| ==> s[i] != s[j]
    requires k in s
    ensures multiset(s)[k] == 1
  {
    if s[|s| - 1] == k {
      var init := s[..|s| - 1];
      assert s == init + [k];
      assert k !in init;
    } else {
      var init := s[..|s| - 1];
      assert s == init + [s[|s| - 1]];
      DistinctOnce(init, k);
    }
  }

  // ------------------------------------------------------- scan, as values

  /** The registry's contents together with the log written so far. */
  datatype ScanState = ScanState(index: TaskIndex, events: seq<LogEvent>)

  function Log(st: ScanState, e: LogEvent): ScanState {
    ScanState(st.index, st.events + [e])
  }

  /** One class of a loaded module (registry.py:104-125). */
  function AdmitClass(st: ScanState, c: ClassCandidate, path: string): ScanState {
    if !c.IsTaskClass() then st
    else match c.instantiation
      case RaisesOnInstantiation => Log(st, InstantiationFailed(c.name, path))
      case Instantiates(t) =>
        var warned := if c.name in st.index.entries then Log(st, Overwriting(c.name, path)) else st;
        ScanState(warned.index.Put(c.name, t), warned.events)
  }

  function AdmitClasses(st: ScanState, cs: seq<ClassCandidate>, path: string): ScanState
    decreases |cs|
  {
    if cs == [] then st
    else AdmitClass(AdmitClasses(st, cs[..|cs| - 1], path), cs[|cs| - 1], path)
  }

  /** `_register_tasks_from_module`: nothing is registered when `BaseTask`
      cannot be imported. */
  function RegisterModule(st: ScanState, cs: seq<ClassCandidate>, path: string, baseTaskImportable: bool): ScanState {
    if baseTaskImportable then AdmitClasses(st, cs, path) else Log(st, BaseTaskUnavailable)
  }

  /** `_load_tasks_from_file`. */
  function LoadFile(st: ScanState, f: CandidateFile, baseTaskImportable: bool): ScanState {
    match f.load
    case SpecUnavailable => Log(st, SpecNotLoadable(f.path))
    case ExecRaises => Log(st, LoadFailed(f.path))
    case Loaded(cs) => RegisterModule(st, cs, f.path, baseTaskImportable)
  }

  /** The loop of `_scan_and_register_tasks` over the files found. */
  function ScanFiles(st: ScanState, files: seq<CandidateFile>, baseTaskImportable: bool): ScanState
    decreases |files|
  {
    if files == [] then st
    else
      var prev := ScanFiles(st, files[..|files| - 1], baseTaskImportable);
      var f := files[|files| - 1];
      if f.fileName == InitFileName then prev else LoadFile(prev, f, baseTaskImportable)
  }

  /** The whole of `_scan_and_register_tasks`; `fileSystem` maps each
      existing directory to the `*.py` files below it. */
  function ScanRun(st: ScanState, path: string, fileSystem: map<string, seq<CandidateFile>>,
                   baseTaskImportable: bool, shouldLog: bool): ScanState
  {
    var started := if shouldLog then Log(st, ScanStarted(path)) else st;
    if path !in fileSystem then Log(started, DirectoryNotFound(path))
    else
      var scanned := ScanFiles(started, fileSystem[path], baseTaskImportable);
      if shouldLog then Log(scanned, ScanComplete(scanned.index.keys)) else scanned
  }

  // ------------------------------------------------------ default path

  /** Where the package lives: `packagePath` is the directory of
      `mobile_world/__init__.py`, `projectRoot` its grandparent. */
  datatype PackageLayout = PackageLayout(packagePath: string, projectRoot: string) {
    function ThirdPartyPath(): string { projectRoot + "/third-party/android_world" }
    function DefinitionsPath(): string { packagePath + "/tasks/definitions" }
    function AndroidWorldDefinitionsPath(): string { packagePath + "/tasks/definitions/android_world" }
  }

  /** The directory `TaskRegistry.__init__` scans (registry.py:27-41): the
      given path if any; otherwise the third-party android_world tasks when
      that suite is asked for and they exist, the android_world definitions
      when they do not, and the mobile_world definitions for any other
      suite name. */
  function ChooseTaskSetPath(given: Option<string>, suiteFamily: string, layout: PackageLayout,
                             thirdPartyExists: bool): (path: string)
    ensures given.Some? ==> path == given.value
    ensures given.None? && suiteFamily == "android_world" && thirdPartyExists ==> path == layout.ThirdPartyPath()
    ensures given.None? && suiteFamily == "android_world" && !thirdPartyExists ==> path == layout.AndroidWorldDefinitionsPath()
    ensures given.None? && suiteFamily != "android_world" ==> path == layout.DefinitionsPath()
  {
    match given
    case Some(p) => p
    case None =>
      if suiteFamily == "android_world" then
        if thirdPartyExists then layout.ThirdPartyPath() else layout.AndroidWorldDefinitionsPath()
      else layout.DefinitionsPath()
  }

  // --------------------------------------------------------- the objects

  /** `TaskRegistry._scan_logged`: the paths whose scan has been announced,
      shared by every registry of the process. */
  class ScanLog {
    var logged: set<string>

    constructor ()
      ensures logged == {}
    {
      logged := {};
    }
  }

  class TaskRegistry {
    var names: seq<string>                  // key order of `self.tasks`
    var tasks: map<string, TaskInstance>    // `self.tasks`
    var log: seq<LogEvent>
    var suiteFamily: string
    var taskSetPath: string

    ghost function Index(): TaskIndex
      reads this
    {
      TaskIndex(names, tasks)
    }

    ghost function State(): ScanState
      reads this
    {
      ScanState(Index(), log)
    }

    ghost predicate Valid()
      reads this
    {
      Index().Valid()
    }

    /** `TaskRegistry(task_set_path, suite_family)`: choose the directory,
        then scan it. The scan never fails: a missing directory leaves the
        registry empty. */
    constructor (givenPath: Option<string>, suiteFamily: string, layout: PackageLayout,
                 fileSystem: map<string, seq<CandidateFile>>, baseTaskImportable: bool,
                 scanLog: ScanLog)
      modifies scanLog
      ensures Valid()
      ensures this.suiteFamily == suiteFamily
      ensures taskSetPath == ChooseTaskSetPath(givenPath, suiteFamily, layout, layout.ThirdPartyPath() in fileSystem)
      ensures State() == ScanRun(ScanState(EmptyIndex, []), taskSetPath, fileSystem, baseTaskImportable,
                                 taskSetPath !in old(scanLog.logged))
      ensures taskSetPath !in fileSystem ==> names == [] && tasks == map[]
      ensures scanLog.logged == old(scanLog.logged) + {taskSetPath}
    {
      names, tasks, log := [], map[], [];
      this.suiteFamily := suiteFamily;
      if givenPath.None? {
        if suiteFamily == "android_world" {
          if layout.ThirdPartyPath() in fileSystem {
            taskSetPath := layout.ThirdPartyPath();
          } else {
            taskSetPath := layout.AndroidWorldDefinitionsPath();
          }
        } else {
          taskSetPath := layout.DefinitionsPath();
        }
      } else {
        taskSetPath := givenPath.value;
      }
      new;
      ScanAndRegisterTasks(fileSystem, baseTaskImportable, scanLog);
    }

    /** `_scan_and_register_tasks`. */
    method ScanAndRegisterTasks(fileSystem: map<string, seq<CandidateFile>>, baseTaskImportable: bool,
                                scanLog: ScanLog)
      requires Valid()
      modifies this`names, this`tasks, this`log, scanLog
      ensures Valid()
      ensures State() == ScanRun(old(State()), taskSetPath, fileSystem, baseTaskImportable,
                                 taskSetPath !in old(scanLog.logged))
      ensures scanLog.logged == old(scanLog.logged) + {taskSetPath}
    {
      var shouldLog := taskSetPath !in scanLog.logged;
      if shouldLog {
        scanLog.logged := scanLog.logged + {taskSetPath};
        log := log + [ScanStarted(taskSetPath)];
      }
      if taskSetPath !in fileSystem {
        log := log + [DirectoryNotFound(taskSetPath)];
        return;
      }
      var files := fileSystem[taskSetPath];
      ghost var start := State();
      var i := 0;
      while i < |files|
        invariant 0 <= i <= |files|
        invariant Valid()
        invariant State() == ScanFiles(start, files[..i], baseTaskImportable)
        invariant scanLog.logged == old(scanLog.logged) + {taskSetPath}
      {
        assert files[..i + 1][..i] == files[..i];
        if files[i].fileName != InitFileName {
          LoadTasksFromFile(files[i], baseTaskImportable);
        }
        i := i + 1;
      }
      assert files[..i] == files;
      if shouldLog {
        log := log + [ScanComplete(names)];
      }
    }

    /** `_load_tasks_from_file`: a file that cannot be loaded is logged and
        contributes nothing. */
    method LoadTasksFromFile(f: CandidateFile, baseTaskImportable: bool)
      requires Valid()
      modifies this`names, this`tasks, this`log
      ensures Valid()
      ensures State() == LoadFile(old(State()), f, baseTaskImportable)
    {
      match f.load
      case SpecUnavailable =>
        log := log + [SpecNotLoadable(f.path)];
      case ExecRaises =>
        log := log + [LoadFailed(f.path)];
      case Loaded(classes) =>
        RegisterTasksFromModule(classes, f.path, baseTaskImportable);
    }

    /** `_register_tasks_from_module`. */
    method RegisterTasksFromModule(classes: seq<ClassCandidate>, path: string, baseTaskImportable: bool)
      requires Valid()
      modifies this`names, this`tasks, this`log
      ensures Valid()
      ensures State() == RegisterModule(old(State()), classes, path, baseTaskImportable)
    {
      if !baseTaskImportable {
        log := log + [BaseTaskUnavailable];
        return;
      }
      ghost var start := State();
      var i := 0;
      while i < |classes|
        invariant 0 <= i <= |classes|
        invariant Valid()
        invariant State() == AdmitClasses(start, classes[..i], path)
      {
        assert classes[..i + 1][..i] == classes[..i];
        var c := classes[i];
        if c.IsTaskClass() {
          match c.instantiation
          case RaisesOnInstantiation =>
            log := log + [InstantiationFailed(c.name, path)];
          case Instantiates(t) =>
            if c.name in tasks {
              log := log + [Overwriting(c.name, path)];
            }
            PutSpec(Index(), c.name, t);
            if c.name !in tasks {
              names := names + [c.name];
            }
            tasks := tasks[c.name := t];
        }
        i := i + 1;
      }
      assert classes[..i] == classes;
    }

    /** `get_task`: the stored instance, or `KeyError` for an unknown name. */
    function GetTask(name: string): (r: Result<TaskInstance>)
      reads this
      requires Valid()
      ensures r.Ok? <==> name in ListTasks()
      ensures r.Ok? ==> r.value == tasks[name]
      ensures r.Err? ==> r.error == KeyError(name)
    {
      if name in tasks then Ok(tasks[name]) else Err(KeyError(name))
    }

    /** `list_tasks`: the names in registration order. */
    function ListTasks(): (r: seq<string>)
      reads this
      requires Valid()
      ensures forall i, j :: 0 <= i < j < |r| ==> r[i] != r[j]
      ensures forall n :: n in r <==> n in tasks
    {
      names
    }

    /** `has_task`. */
    function HasTask(name: string): (r: bool)
      reads this
      requires Valid()
      ensures r <==> name in ListTasks()
      ensures r <==> GetTask(name).Ok?
    {
      name in tasks
    }
  }

  // ------------------------------------------------ properties of the scan

  /** Admitting classes only ever adds entries, so the registration order
      of what was there before is kept. */
  lemma {:induction false} AdmitClassesKeepsOrder(st: ScanState, cs: seq<ClassCandidate>, path: string)
    requires st.index.Valid()
    ensures AdmitClasses(st, cs, path).index.Valid()
    ensures |st.index.keys| <= |AdmitClasses(st, cs, path).index.keys|
    ensures AdmitClasses(st, cs, path).index.keys[..|st.index.keys|] == st.index.keys
    decreases |cs|
  {
    if cs != [] {
      var prev := AdmitClasses(st, cs[..|cs| - 1], path);
      AdmitClassesKeepsOrder(st, cs[..|cs| - 1], path);
      var c := cs[|cs| - 1];
      if c.Registers() {
        PutSpec(prev.index, c.name, c.instantiation.instance);
        var r := AdmitClasses(st, cs, path);
        if c.name !in prev.index.entries {
          assert r.index.keys[..|prev.index.keys|] == prev.index.keys;
        }
      }
    }
  }

  /** A name is registered by the classes of a module exactly when it was
      there before or some class that passes the filter and instantiates
      carries that name. */
  lemma {:induction false} AdmitClassesRegisters(st: ScanState, cs: seq<ClassCandidate>, path: string, n: string)
    ensures n in AdmitClasses(st, cs, path).index.entries
            <==> n in st.index.entries || exists j :: 0 <= j < |cs| && cs[j].Registers() && cs[j].name == n
    decreases |cs|
  {
    if cs != [] {
      var init := cs[..|cs| - 1];
      AdmitClassesRegisters(st, init, path, n);
      if exists j :: 0 <= j < |init| && init[j].Registers() && init[j].name == n {
        var j :| 0 <= j < |init| && init[j].Registers() && init[j].name == n;
        assert cs[j] == init[j];
      }
      if exists j :: 0 <= j < |cs| && cs[j].Registers() && cs[j].name == n {
        var j :| 0 <= j < |cs| && cs[j].Registers() && cs[j].name == n;
        if j < |init| { assert init[j] == cs[j]; }
      }
    }
  }

  /** Last definition wins: the entry under a name holds the instance of
      the last class with that name that registers. */
  lemma {:induction false} AdmitClassesLastWins(st: ScanState, cs: seq<ClassCandidate>, path: string, j: nat)
    requires j < |cs| && cs[j].Registers()
    requires forall k :: j < k < |cs| && cs[k].Registers() ==> cs[k].name != cs[j].name
    ensures cs[j].name in AdmitClasses(st, cs, path).index.entries
    ensures AdmitClasses(st, cs, path).index.entries[cs[j].name] == cs[j].instantiation.instance
    decreases |cs|
  {
    var init := cs[..|cs| - 1];
    if j < |cs| - 1 {
      forall k | j < k < |init| && init[k].Registers()
        ensures init[k].name != init[j].name
      {
        assert init[k] == cs[k];
      }
      AdmitClassesLastWins(st, init, path, j);
      assert init[j] == cs[j];
    }
  }

  /** Folding over two runs of classes is folding over the first, then the
      second. */
  lemma {:induction false} AdmitClassesAppend(st: ScanState, a: seq<ClassCandidate>, b: seq<ClassCandidate>, path: string)
    ensures AdmitClasses(st, a + b, path) == AdmitClasses(AdmitClasses(st, a, path), b, path)
    decreases |b|
  {
    if b == [] {
      assert a + b == a;
    } else {
      assert (a + b)[..|a + b| - 1] == a + b[..|b| - 1];
      AdmitClassesAppend(st, a, b[..|b| - 1], path);
    }
  }

  /** What is registered depends on what was registered before, not on
      what was logged. */
  lemma {:induction false} AdmitClassesIgnoresLog(st1: ScanState, st2: ScanState, cs: seq<ClassCandidate>, path: string)
    requires st1.index == st2.index
    ensures AdmitClasses(st1, cs, path).index == AdmitClasses(st2, cs, path).index
    decreases |cs|
  {
    if cs != [] {
      AdmitClassesIgnoresLog(st1, st2, cs[..|cs| - 1], path);
    }
  }

  /** A class that fails the filter or whose instantiation raises changes
      nothing about the other classes' registrations. */
  lemma ClassFailureIsolated(st: ScanState, pre: seq<ClassCandidate>, c: ClassCandidate,
                             post: seq<ClassCandidate>, path: string)
    requires !c.Registers()
    ensures AdmitClasses(st, pre + [c] + post, path).index == AdmitClasses(st, pre + post, path).index
  {
    AdmitClassesAppend(st, pre + [c], post, path);
    AdmitClassesAppend(st, pre, [c], path);
    AdmitClassesAppend(st, pre, post, path);
    var mid := AdmitClasses(st, pre, path);
    assert [c][..0] == [];
    AdmitClassesIgnoresLog(AdmitClasses(mid, [c], path), mid, post, path);
  }

  lemma {:induction false} ScanFilesAppend(st: ScanState, a: seq<CandidateFile>, b: seq<CandidateFile>, base: bool)
    ensures ScanFiles(st, a + b, base) == ScanFiles(ScanFiles(st, a, base), b, base)
    decreases |b|
  {
    if b == [] {
      assert a + b == a;
    } else {
      assert (a + b)[..|a + b| - 1] == a + b[..|b| - 1];
      ScanFilesAppend(st, a, b[..|b| - 1], base);
    }
  }

  lemma {:induction false} ScanFilesIgnoresLog(st1: ScanState, st2: ScanState, files: seq<CandidateFile>, base: bool)
    requires st1.index == st2.index
    ensures ScanFiles(st1, files, base).index == ScanFiles(st2, files, base).index
    decreases |files|
  {
    if files != [] {
      var init := files[..|files| - 1];
      ScanFilesIgnoresLog(st1, st2, init, base);
      var f := files[|files| - 1];
      if f.load.Loaded? && base {
        AdmitClassesIgnoresLog(ScanFiles(st1, init, base), ScanFiles(st2, init, base), f.load.classes, path := f.path);
      }
    }
  }

  /** The file's contribution is skipped: it is an `__init__.py`, it cannot
      be loaded, or `BaseTask` is unavailable. */
  predicate FileSkipped(f: CandidateFile, base: bool) {
    f.fileName == InitFileName || !f.load.Loaded? || !base
  }

  /** A skipped file changes nothing about the other files' registrations. */
  lemma FileFailureIsolated(st: ScanState, pre: seq<CandidateFile>, f: CandidateFile,
                            post: seq<CandidateFile>, base: bool)
    requires FileSkipped(f, base)
    ensures ScanFiles(st, pre + [f] + post, base).index == ScanFiles(st, pre + post, base).index
  {
    ScanFilesAppend(st, pre + [f], post, base);
    ScanFilesAppend(st, pre, [f], base);
    ScanFilesAppend(st, pre, post, base);
    var mid := ScanFiles(st, pre, base);
    assert [f][..0] == [];
    ScanFilesIgnoresLog(ScanFiles(mid, [f], base), mid, post, base);
  }

  /** A name is registered by a file exactly as `AdmitClassesRegisters`
      says, for a file that is not skipped. */
  ghost predicate FileRegisters(f: CandidateFile, base: bool, n: string) {
    && !FileSkipped(f, base)
    && exists j :: 0 <= j < |f.load.classes| && f.load.classes[j].Registers() && f.load.classes[j].name == n
  }

  /** After the scan, a name is registered exactly when some file that is
      loaded defines a registering class of that name (or it was there
      before). */
  lemma {:induction false} ScanFilesRegisters(st: ScanState, files: seq<CandidateFile>, base: bool, n: string)
    ensures n in ScanFiles(st, files, base).index.entries
            <==> n in st.index.entries || exists i :: 0 <= i < |files| && FileRegisters(files[i], base, n)
    decreases |files|
  {
    if files != [] {
      var init := files[..|files| - 1];
      var f := files[|files| - 1];
      var prev := ScanFiles(st, init, base);
      ScanFilesRegisters(st, init, base, n);
      if !FileSkipped(f, base) {
        AdmitClassesRegisters(prev, f.load.classes, f.path, n);
      }
      if exists i :: 0 <= i < |init| && FileRegisters(init[i], base, n) {
        var i :| 0 <= i < |init| && FileRegisters(init[i], base, n);
        assert files[i] == init[i];
      }
      if exists i :: 0 <= i < |files| && FileRegisters(files[i], base, n) {
        var i :| 0 <= i < |files| && FileRegisters(files[i], base, n);
        if i < |init| { assert init[i] == files[i]; }
      }
    }
  }

  /** The two lines announcing a scan. */
  predicate IsBanner(e: LogEvent) {
    e.ScanStarted? || e.ScanComplete?
  }

  /** Admitting classes only appends to the log, and never a banner. */
  lemma {:induction false} AdmitClassesExtendsLog(st: ScanState, cs: seq<ClassCandidate>, path: string)
    ensures var r := AdmitClasses(st, cs, path);
            && |st.events| <= |r.events| && r.events[..|st.events|] == st.events
            && forall k :: |st.events| <= k < |r.events| ==> !IsBanner(r.events[k])
    decreases |cs|
  {
    if cs != [] {
      AdmitClassesExtendsLog(st, cs[..|cs| - 1], path);
      var prev := AdmitClasses(st, cs[..|cs| - 1], path);
      var r := AdmitClasses(st, cs, path);
      assert r.events[..|prev.events|] == prev.events;
    }
  }

  /** Scanning files only appends to the log, and never a banner. */
  lemma {:induction false} ScanFilesExtendsLog(st: ScanState, files: seq<CandidateFile>, base: bool)
    ensures var r := ScanFiles(st, files, base);
            && |st.events| <= |r.events| && r.events[..|st.events|] == st.events
            && forall k :: |st.events| <= k < |r.events| ==> !IsBanner(r.events[k])
    decreases |files|
  {
    if files != [] {
      var init := files[..|files| - 1];
      ScanFilesExtendsLog(st, init, base);
      var prev := ScanFiles(st, init, base);
      var f := files[|files| - 1];
      if f.load.Loaded? && base {
        AdmitClassesExtendsLog(prev, f.load.classes, f.path);
      }
      var r := ScanFiles(st, files, base);
      assert r.events[..|prev.events|] == prev.events;
    }
  }

  /** The start and completion lines are written exactly when the scan is
      the first one of its path: a first scan opens with the start line and,
      when the directory exists, closes with the completion line naming the
      registered tasks; any other scan writes neither. A missing directory
      registers nothing and writes one warning. */
  lemma ScanRunLogging(st: ScanState, path: string, fs: map<string, seq<CandidateFile>>, base: bool, shouldLog: bool)
    ensures var r := ScanRun(st, path, fs, base, shouldLog);
            && |st.events| <= |r.events| && r.events[..|st.events|] == st.events
            && (shouldLog ==> |r.events| > |st.events| && r.events[|st.events|] == ScanStarted(path))
            && (shouldLog && path in fs ==> r.events[|r.events| - 1] == ScanComplete(r.index.keys))
            && (!shouldLog ==> forall k :: |st.events| <= k < |r.events| ==> !IsBanner(r.events[k]))
            && (path !in fs ==>
                  (r.index == st.index
                   && r.events == st.events + (if shouldLog then [ScanStarted(path)] else []) + [DirectoryNotFound(path)]))
  {
    var started := if shouldLog then Log(st, ScanStarted(path)) else st;
    if path in fs {
      ScanFilesExtendsLog(started, fs[path], base);
      var r := ScanRun(st, path, fs, base, shouldLog);
      var scanned := ScanFiles(started, fs[path], base);
      if shouldLog {
        assert r.events[..|scanned.events|] == scanned.events;
        assert scanned.events[..|started.events|] == started.events;
        assert r.events[..|st.events|] == st.events;
      }
    }
  }

  /** Overwriting writes a warning and never an error: the module's scan
      carries on with the next class. */
  lemma OverwriteWarns(st: ScanState, c: ClassCandidate, path: string)
    requires st.index.Valid() && c.Registers() && c.name in st.index.entries
    ensures AdmitClass(st, c, path).events == st.events + [Overwriting(c.name, path)]
    ensures AdmitClass(st, c, path).index.keys == st.index.keys
    ensures AdmitClass(st, c, path).index.entries[c.name] == c.instantiation.instance
  {
  }
}
