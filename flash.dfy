/**
 * The upload session of `tricore-windows/src/flash.rs`: `MemtoolUpload::start`
 * prepares a temporary workspace (the HEX file, the Memtool configuration and
 * the batch script) and starts Memtool on it; `MemtoolUpload::wait` waits for
 * Memtool to exit and insists that it exited with success.
 *
 * The operating system is a `Host` object: a set of directories, a map from
 * file path to contents, and the log of what the session did to it. Creating
 * the workspace, writing a file and starting a process may each fail for
 * reasons outside the program, so each host operation chooses freely whether
 * it succeeds.
 */
module Flash {
  import opened Wrappers
  import opened Lines
  import opened Paths
  import opened Batch
  import opened MemtoolConfig

  /** The name of the file the firmware is written to. */
  const InputHex: string := "input.hex"

  /** The name of the file the Memtool configuration is written to. */
  const TempConfig: string := "temp_config.cfg"

  /** The name of the file the batch script is written to. */
  const BatchMtb: string := "batch.mtb"

  function HexPath(dir: string): string { JoinPath(dir, InputHex) }

  function ConfigPath(dir: string): string { JoinPath(dir, TempConfig) }

  function BatchPath(dir: string): string { JoinPath(dir, BatchMtb) }

  /** The arguments Memtool is started with: the configuration, then the batch script. */
  function MemtoolArgs(dir: string): seq<string>
  {
    ["-c", ConfigPath(dir), BatchPath(dir)]
  }

  /** The steps of `start`, in the order it takes them. */
  datatype Stage = CreateWorkspace | WriteFirmware | WriteConfig | WriteBatch | SpawnMemtool

  /** How many steps come before `stage`. */
  function StepIndex(stage: Stage): (k: nat)
    ensures k < 5
  {
    match stage
    case CreateWorkspace => 0
    case WriteFirmware => 1
    case WriteConfig => 2
    case WriteBatch => 3
    case SpawnMemtool => 4
  }

  /** The message `start` attaches to the error of each step. */
  function Context(stage: Stage): string
  {
    match stage
    case CreateWorkspace => "Cannot create temporary directory for memtool input"
    case WriteFirmware => "Cannot write create temporary input hex file"
    case WriteConfig => "Cannot write create temporary memtool configuration file"
    case WriteBatch => "Cannot create temporary memtool batch file"
    case SpawnMemtool => "Could not start memtool to flash device"
  }

  /** The error `start` returns: the step that failed, its message, and the error it failed with. */
  datatype StartError = StartError(stage: Stage, context: string, cause: IoError)

  /**
   * An operating-system error, kept only as its `Debug` rendering, the text
   * `expect` adds to its panic message.
   */
  datatype IoError = IoError(debug: string)

  /** What the session did to the host, one entry per successful operation. */
  datatype Event =
    | Created(dir: string)
    | Wrote(path: string, contents: string)
    | Spawned(program: string, args: seq<string>)

  /** The effect of the step `stage` of `start` when it succeeds. */
  function StepEvent(memtool: string, dir: string, ihex: string, haltMemtool: bool, cfg: string, stage: Stage): Event
  {
    match stage
    case CreateWorkspace => Created(dir)
    case WriteFirmware => Wrote(HexPath(dir), ihex)
    case WriteConfig => Wrote(ConfigPath(dir), cfg)
    case WriteBatch => Wrote(BatchPath(dir), BatchScript(haltMemtool, HexPath(dir)))
    case SpawnMemtool => Spawned(memtool, MemtoolArgs(dir))
  }

  /**
   * Everything a successful `start` does, in order: create the workspace,
   * write the firmware, the configuration `cfg` and the batch script into
   * it, and start Memtool on the last two.
   */
  function StartPlan(memtool: string, dir: string, ihex: string, haltMemtool: bool, cfg: string): seq<Event>
  {
    [ StepEvent(memtool, dir, ihex, haltMemtool, cfg, CreateWorkspace),
      StepEvent(memtool, dir, ihex, haltMemtool, cfg, WriteFirmware),
      StepEvent(memtool, dir, ihex, haltMemtool, cfg, WriteConfig),
      StepEvent(memtool, dir, ihex, haltMemtool, cfg, WriteBatch),
      StepEvent(memtool, dir, ihex, haltMemtool, cfg, SpawnMemtool) ]
  }

  /**
   * What `start` does when the step `failed` fails (or, for `None`, when
   * none fails): the steps before the failing one and nothing after.
   */
  function StartEvents(memtool: string, dir: string, ihex: string, haltMemtool: bool, cfg: string,
                       failed: Option<Stage>): seq<Event>
  {
    var plan := StartPlan(memtool, dir, ihex, haltMemtool, cfg);
    match failed
    case None => plan
    case Some(stage) => plan[..StepIndex(stage)]
  }

  /** The files after the writes among `events`, applied in order. */
  function FilesAfter(files: map<string, string>, events: seq<Event>): map<string, string>
  {
    if events == [] then files
    else
      var before := FilesAfter(files, events[..|events| - 1]);
      match events[|events| - 1]
      case Wrote(path, contents) => before[path := contents]
      case _ => before
  }

  /** The step after `stage`, or `None` after the last one. */
  function NextStage(stage: Stage): (next: Option<Stage>)
    ensures next.Some? ==> StepIndex(next.value) == StepIndex(stage) + 1
    ensures next.None? <==> stage == SpawnMemtool
  {
    match stage
    case CreateWorkspace => Some(WriteFirmware)
    case WriteFirmware => Some(WriteConfig)
    case WriteConfig => Some(WriteBatch)
    case WriteBatch => Some(SpawnMemtool)
    case SpawnMemtool => None
  }

  /**
   * A host that shows the steps before `stage` and then the event `e` of
   * that step shows the steps up to the next one.
   */
  lemma StartStep(memtool: string, dir: string, ihex: string, haltMemtool: bool, cfg: string, stage: Stage, e: Event,
                  events0: seq<Event>, files0: map<string, string>, events: seq<Event>, files: map<string, string>)
    requires e == StepEvent(memtool, dir, ihex, haltMemtool, cfg, stage)
    requires var before := StartEvents(memtool, dir, ihex, haltMemtool, cfg, Some(stage));
      && events == events0 + before + [e]
      && files == if e.Wrote? then FilesAfter(files0, before)[e.path := e.contents] else FilesAfter(files0, before)
    ensures var after := StartEvents(memtool, dir, ihex, haltMemtool, cfg, NextStage(stage));
      && events == events0 + after
      && files == FilesAfter(files0, after)
  {
    var plan := StartPlan(memtool, dir, ihex, haltMemtool, cfg);
    var k := StepIndex(stage);
    var before := plan[..k];
    assert StartEvents(memtool, dir, ihex, haltMemtool, cfg, NextStage(stage)) == before + [e] by {
      assert plan[..k + 1] == before + [plan[k]];
    }
    FilesAfterStep(files0, before, e);
  }

  /** A write changes the file it names and nothing else; other events change no file. */
  lemma FilesAfterStep(files: map<string, string>, events: seq<Event>, e: Event)
    ensures FilesAfter(files, events + [e])
      == if e.Wrote? then FilesAfter(files, events)[e.path := e.contents] else FilesAfter(files, events)
  {
    assert (events + [e])[..|events|] == events;
  }

  /** The three files of the workspace are distinct children of it, carrying the names `start` gives them. */
  lemma WorkspaceFiles(dir: string)
    ensures Parent(HexPath(dir)) == dir && FileName(HexPath(dir)) == InputHex
    ensures Parent(ConfigPath(dir)) == dir && FileName(ConfigPath(dir)) == TempConfig
    ensures Parent(BatchPath(dir)) == dir && FileName(BatchPath(dir)) == BatchMtb
    ensures HexPath(dir) != ConfigPath(dir) && HexPath(dir) != BatchPath(dir) && ConfigPath(dir) != BatchPath(dir)
  {
    ParentAndFileNameOfJoin(dir, InputHex);
    ParentAndFileNameOfJoin(dir, TempConfig);
    ParentAndFileNameOfJoin(dir, BatchMtb);
    assert InputHex[0] != TempConfig[0] && InputHex[0] != BatchMtb[0] && TempConfig[0] != BatchMtb[0];
  }

  /**
   * A start that fails at `stage` has done a proper prefix of the plan,
   * one event per step before `stage`, and has not started Memtool.
   */
  lemma FailedStartNeverSpawns(memtool: string, dir: string, ihex: string, haltMemtool: bool, cfg: string, stage: Stage)
    ensures var plan := StartPlan(memtool, dir, ihex, haltMemtool, cfg);
      var done := StartEvents(memtool, dir, ihex, haltMemtool, cfg, Some(stage));
      && |done| == StepIndex(stage) < |plan|
      && done == plan[..|done|]
      && forall i | 0 <= i < |done| :: !done[i].Spawned?
  {
    var plan := StartPlan(memtool, dir, ihex, haltMemtool, cfg);
    var done := StartEvents(memtool, dir, ihex, haltMemtool, cfg, Some(stage));
    forall i | 0 <= i < |done|
      ensures !done[i].Spawned?
    {
      assert done[i] == plan[i];
    }
  }

  /** A successful start starts Memtool exactly once, as its last step, on the files of the workspace. */
  lemma SuccessfulStartSpawnsLast(memtool: string, dir: string, ihex: string, haltMemtool: bool, cfg: string)
    ensures var done := StartEvents(memtool, dir, ihex, haltMemtool, cfg, None);
      && done[|done| - 1] == Spawned(memtool, ["-c", ConfigPath(dir), BatchPath(dir)])
      && forall i | 0 <= i < |done| - 1 :: !done[i].Spawned?
  {
  }

  /** A successful start writes the firmware, the configuration and the batch script into the workspace, and nothing else. */
  lemma SuccessfulStartFiles(memtool: string, dir: string, ihex: string, haltMemtool: bool, cfg: string,
                             files: map<string, string>)
    ensures FilesAfter(files, StartEvents(memtool, dir, ihex, haltMemtool, cfg, None))
      == files[HexPath(dir) := ihex][ConfigPath(dir) := cfg][BatchPath(dir) := BatchScript(haltMemtool, HexPath(dir))]
  {
    var plan := StartPlan(memtool, dir, ihex, haltMemtool, cfg);
    assert plan[..0] == [];
    FilesAfterPrefix(files, plan, 0);
    FilesAfterPrefix(files, plan, 1);
    FilesAfterPrefix(files, plan, 2);
    FilesAfterPrefix(files, plan, 3);
    FilesAfterPrefix(files, plan, 4);
    assert plan[..5] == plan;
  }

  /**
   * After a successful start, the batch script in the workspace makes
   * Memtool load the firmware file beside it, and that file holds `ihex`.
   */
  lemma BatchLoadsWrittenFirmware(memtool: string, dir: string, ihex: string, haltMemtool: bool, cfg: string,
                                  files: map<string, string>)
    requires LF !in dir
    ensures var after := FilesAfter(files, StartEvents(memtool, dir, ihex, haltMemtool, cfg, None));
      && BatchPath(dir) in after && OpenedFile(after[BatchPath(dir)]) == Some(HexPath(dir))
      && HexPath(dir) in after && after[HexPath(dir)] == ihex
      && ConfigPath(dir) in after && after[ConfigPath(dir)] == cfg
  {
    SuccessfulStartFiles(memtool, dir, ihex, haltMemtool, cfg, files);
    WorkspaceFiles(dir);
    assert LF !in HexPath(dir);
    BatchOpensHexFile(haltMemtool, HexPath(dir));
  }

  /**
   * When nothing lay inside the workspace before, a successful start leaves
   * exactly its three files there and every earlier file as it was.
   */
  lemma SuccessfulStartWorkspace(memtool: string, dir: string, ihex: string, haltMemtool: bool, cfg: string,
                                 files: map<string, string>)
    requires forall f | f in files :: !Within(dir, f)
    ensures var after := FilesAfter(files, StartEvents(memtool, dir, ihex, haltMemtool, cfg, None));
      && (set f | f in after && Within(dir, f)) == {HexPath(dir), ConfigPath(dir), BatchPath(dir)}
      && forall f | f in files :: f in after && after[f] == files[f]
  {
    SuccessfulStartFiles(memtool, dir, ihex, haltMemtool, cfg, files);
    assert Within(dir, HexPath(dir)) && Within(dir, ConfigPath(dir)) && Within(dir, BatchPath(dir));
  }

  /** The files after the first `k + 1` events of `events`, from the files after the first `k`. */
  lemma FilesAfterPrefix(files: map<string, string>, events: seq<Event>, k: nat)
    requires k < |events|
    ensures FilesAfter(files, events[..k + 1])
      == if events[k].Wrote? then FilesAfter(files, events[..k])[events[k].path := events[k].contents]
         else FilesAfter(files, events[..k])
  {
    assert events[..k + 1] == events[..k] + [events[k]];
    FilesAfterStep(files, events[..k], events[k]);
  }

  /** The exit status of a process; only whether it reports success matters. */
  datatype ExitStatus = ExitStatus(success: bool)

  /** How `wait` ends: it returns, or it panics with a message. */
  datatype WaitOutcome = Returned | Panicked(message: string)

  /** The message `wait` gives `expect` for a failed wait. */
  const ExpectMessage: string := "Memtool did not exit with success"

  /** The message `assert!(output.success())` panics with. */
  const AssertMessage: string := "assertion failed: output.success()"

  /**
   * The verdict of `wait` on what waiting for Memtool gave: a wait error
   * panics through `expect`, whose message is the given one, a colon and
   * the error's `Debug` text; an unsuccessful status panics through `assert!`.
   */
  function WaitVerdict(waited: Result<ExitStatus, IoError>): (outcome: WaitOutcome)
    ensures outcome == Returned <==> waited.Ok? && waited.value.success
    ensures outcome.Panicked? && StartsWith(outcome.message, ExpectMessage) <==> waited.Err?
    ensures waited.Err? ==> outcome.message == ExpectMessage + ": " + waited.error.debug
    ensures waited.Ok? && !waited.value.success ==> outcome.message == AssertMessage
  {
    match waited
    case Err(e) =>
      var message := ExpectMessage + ": " + e.debug;
      assert message[..|ExpectMessage|] == ExpectMessage;
      Panicked(message)
    case Ok(status) =>
      if status.success then Returned
      else
        assert AssertMessage[0] != ExpectMessage[0];
        Panicked(AssertMessage)
  }

  /** The temporary workspace, a directory the session owns. */
  class TempDir {
    const path: string

    constructor (path: string)
      ensures this.path == path
    {
      this.path := path;
    }
  }

  /** A started process. */
  class Child {
    const program: string
    const args: seq<string>
    /** The exit status, once the process has been waited for. */
    var exit: Option<ExitStatus>

    constructor (program: string, args: seq<string>)
      ensures this.program == program && this.args == args && exit == None
    {
      this.program := program;
      this.args := args;
      exit := None;
    }

    /**
     * Waits for the process to exit. Once it has exited, its status is kept
     * and every later wait gives it again; until then waiting may fail.
     */
    method Wait() returns (waited: Result<ExitStatus, IoError>)
      modifies this
      ensures old(exit).Some? ==> waited == Ok(old(exit).value) && exit == old(exit)
      ensures old(exit).None? && waited.Ok? ==> exit == Some(waited.value)
      ensures old(exit).None? && waited.Err? ==> exit == None
    {
      if exit.Some? {
        waited := Ok(exit.value);
      } else {
        var exited: bool :| true;
        var success: bool :| true;
        if exited {
          waited := Ok(ExitStatus(success));
          exit := Some(waited.value);
        } else {
          var debug: string :| true;
          waited := Err(IoError(debug));
        }
      }
    }
  }

  /** The operating system the session runs on. */
  class Host {
    /** The path of the Memtool executable, fixed when the program is built. */
    const memtoolPath: string
    var dirs: set<string>
    var files: map<string, string>
    var events: seq<Event>

    constructor (memtoolPath: string)
      ensures this.memtoolPath == memtoolPath
      ensures dirs == {} && files == map[] && events == []
    {
      this.memtoolPath := memtoolPath;
      dirs := {};
      files := map[];
      events := [];
    }

    /** Nothing on the host is at `path` or inside it: no directory is `path` and no file lies within it. */
    predicate Unused(path: string)
      reads this
    {
      path !in dirs && forall f | f in files :: !Within(path, f)
    }

    /**
     * `TempDir::new`, with the name it picks given as `path`: a new name,
     * so the workspace it creates is the session's alone.
     */
    method CreateTempDir(path: string) returns (r: Result<TempDir, IoError>)
      requires Unused(path)
      modifies this
      ensures r.Ok? ==> fresh(r.value) && r.value.path == path
      ensures dirs == if r.Ok? then old(dirs) + {path} else old(dirs)
      ensures events == old(events) + if r.Ok? then [Created(path)] else []
      ensures files == old(files)
    {
      var ok: bool :| true;
      if ok {
        var d := new TempDir(path);
        r := Ok(d);
        dirs := dirs + {path};
        events := events + [Created(path)];
      } else {
        var debug: string :| true;
        r := Err(IoError(debug));
      }
    }

    /** `std::fs::write`: replaces the contents of the file at `path`. */
    method WriteFile(path: string, contents: string) returns (r: Result<(), IoError>)
      modifies this
      ensures files == if r.Ok? then old(files)[path := contents] else old(files)
      ensures events == old(events) + if r.Ok? then [Wrote(path, contents)] else []
      ensures dirs == old(dirs)
    {
      var ok: bool :| true;
      if ok {
        r := Ok(());
        files := files[path := contents];
        events := events + [Wrote(path, contents)];
      } else {
        var debug: string :| true;
        r := Err(IoError(debug));
      }
    }

    /** `Command::spawn`: starts `program` with `args`. */
    method Spawn(program: string, args: seq<string>) returns (r: Result<Child, IoError>)
      modifies this
      ensures r.Ok? ==> fresh(r.value) && r.value.program == program && r.value.args == args && r.value.exit == None
      ensures events == old(events) + if r.Ok? then [Spawned(program, args)] else []
      ensures dirs == old(dirs) && files == old(files)
    {
      var ok: bool :| true;
      if ok {
        var c := new Child(program, args);
        r := Ok(c);
        events := events + [Spawned(program, args)];
      } else {
        var debug: string :| true;
        r := Err(IoError(debug));
      }
    }
  }

  /** The step `start` failed at, if any. */
  function FailedStage(r: Result<MemtoolUpload, StartError>): Option<Stage>
  {
    if r.Ok? then None else Some(r.error.stage)
  }

  /** A running upload: Memtool, and the workspace it reads from. */
  class MemtoolUpload {
    const spawned: Child
    const temporaryFiles: TempDir

    constructor (spawned: Child, temporaryFiles: TempDir)
      ensures this.spawned == spawned && this.temporaryFiles == temporaryFiles
    {
      this.spawned := spawned;
      this.temporaryFiles := temporaryFiles;
    }

    /**
     * `MemtoolUpload::start`: renders the configuration `cfg` for `udasPort`
     * and takes the steps of `StartWithConfig` with it. The host sees
     * exactly the steps before the failing one, in order, or all five; on
     * success Memtool runs on the workspace `dir`, and on failure the error
     * names the failing step and its message.
     */
    static method Start(host: Host, dir: string, ihex: string, haltMemtool: bool, udasPort: nat)
      returns (r: Result<MemtoolUpload, StartError>, ghost cfg: string)
      requires host.Unused(dir)
      modifies host
      ensures var done := StartEvents(host.memtoolPath, dir, ihex, haltMemtool, cfg, FailedStage(r));
        && host.events == old(host.events) + done
        && host.files == FilesAfter(old(host.files), done)
      ensures host.dirs == if FailedStage(r) == Some(CreateWorkspace) then old(host.dirs) else old(host.dirs) + {dir}
      ensures r.Ok? ==> && fresh(r.value) && fresh(r.value.spawned) && fresh(r.value.temporaryFiles)
                        && r.value.temporaryFiles.path == dir
                        && r.value.spawned.program == host.memtoolPath
                        && r.value.spawned.args == MemtoolArgs(dir)
                        && r.value.spawned.exit == None
      ensures r.Err? ==> r.error.context == Context(r.error.stage)
      ensures cfg == CreateCfg(udasPort)
    {
      // the steps need only that `config` is some text, not which
      hide CreateCfg;
      var config := CreateCfg(udasPort);
      cfg := config;
      r := StartWithConfig(host, dir, ihex, haltMemtool, config);
    }

    /**
     * The steps of `start` once the configuration text `cfg` is rendered.
     * The workspace is created in `dir`. The host sees exactly the steps
     * before the failing one, in order, or all five; the files are those
     * writes applied to the old files; on success Memtool runs with the
     * configuration and the batch script of `dir`, and on failure the error
     * names the failing step and its message.
     */
    static method StartWithConfig(host: Host, dir: string, ihex: string, haltMemtool: bool, cfg: string)
      returns (r: Result<MemtoolUpload, StartError>)
      requires host.Unused(dir)
      modifies host
      ensures var done := StartEvents(host.memtoolPath, dir, ihex, haltMemtool, cfg, FailedStage(r));
        && host.events == old(host.events) + done
        && host.files == FilesAfter(old(host.files), done)
      ensures host.dirs == if FailedStage(r) == Some(CreateWorkspace) then old(host.dirs) else old(host.dirs) + {dir}
      ensures r.Ok? ==> && fresh(r.value) && fresh(r.value.spawned) && fresh(r.value.temporaryFiles)
                        && r.value.temporaryFiles.path == dir
                        && r.value.spawned.program == host.memtoolPath
                        && r.value.spawned.args == MemtoolArgs(dir)
                        && r.value.spawned.exit == None
      ensures r.Err? ==> r.error.context == Context(r.error.stage)
    {
      ghost var memtool, events0, files0 := host.memtoolPath, host.events, host.files;
      var created := host.CreateTempDir(dir);
      if created.Err? {
        return Err(StartError(CreateWorkspace, Context(CreateWorkspace), created.error));
      }
      var temporaryFiles := created.value;
      StartStep(memtool, dir, ihex, haltMemtool, cfg, CreateWorkspace, Created(dir), events0, files0, host.events, host.files);

      var inputHexPath := JoinPath(temporaryFiles.path, InputHex);
      var wrote := host.WriteFile(inputHexPath, ihex);
      if wrote.Err? {
        return Err(StartError(WriteFirmware, Context(WriteFirmware), wrote.error));
      }
      StartStep(memtool, dir, ihex, haltMemtool, cfg, WriteFirmware, Wrote(inputHexPath, ihex), events0, files0, host.events, host.files);

      var configPath := JoinPath(temporaryFiles.path, TempConfig);
      wrote := host.WriteFile(configPath, cfg);
      if wrote.Err? {
        return Err(StartError(WriteConfig, Context(WriteConfig), wrote.error));
      }
      StartStep(memtool, dir, ihex, haltMemtool, cfg, WriteConfig, Wrote(configPath, cfg), events0, files0, host.events, host.files);

      // the halt-mode script joins the workspace path and the file name anew
      var mtb := if !haltMemtool then BatchScript(false, inputHexPath)
                 else BatchScript(true, JoinPath(temporaryFiles.path, InputHex));
      var batchPath := JoinPath(temporaryFiles.path, BatchMtb);
      wrote := host.WriteFile(batchPath, mtb);
      if wrote.Err? {
        return Err(StartError(WriteBatch, Context(WriteBatch), wrote.error));
      }
      StartStep(memtool, dir, ihex, haltMemtool, cfg, WriteBatch, Wrote(batchPath, mtb), events0, files0, host.events, host.files);

      var child := host.Spawn(host.memtoolPath, ["-c", configPath, batchPath]);
      if child.Err? {
        return Err(StartError(SpawnMemtool, Context(SpawnMemtool), child.error));
      }
      StartStep(memtool, dir, ihex, haltMemtool, cfg, SpawnMemtool, Spawned(memtool, ["-c", configPath, batchPath]), events0, files0, host.events, host.files);
      var upload := new MemtoolUpload(child.value, temporaryFiles);
      r := Ok(upload);
    }

    /**
     * `MemtoolUpload::wait`: waits for Memtool, and returns normally only
     * when it exited with success; `waited` is what the wait gave.
     */
    method Wait() returns (outcome: WaitOutcome, waited: Result<ExitStatus, IoError>)
      modifies spawned
      ensures outcome == WaitVerdict(waited)
      ensures old(spawned.exit).Some? ==> waited == Ok(old(spawned.exit).value)
      ensures waited.Ok? ==> spawned.exit == Some(waited.value)
      ensures waited.Err? ==> spawned.exit == old(spawned.exit)
    {
      waited := spawned.Wait();
      outcome := WaitVerdict(waited);
    }
  }
}
