# Flashing with Infineon Memtool (`tricore-windows/src/flash.rs`)

This project is a Dafny model of how `tricore-probe` flashes a TriCore device on Windows. It also proves properties of that model. The model has three parts:

- **The batch script** (`batch.mtb`). It is the command text Memtool runs: `connect`, `open_file <hex>`, then either the five programming commands or nothing more when Memtool is to stay open (`haltMemtool`). See `batch.dfy`.
- **The configuration** (`temp_config.cfg`). `create_cfg` renders a fixed INI-style template. The model keeps the template as a sequence of typed lines: section headers, `key=value` settings and free text. The file is their texts joined by LF. See `config.dfy`.
  - Each layout is proved to:
    - start with `[Main]`;
    - end with the `OnConnectScript` header and no LF after it;
    - hold exactly one `DasPortSel=` line, which reads `DasPortSel=0` and lies in the `[Controller0.Core0.Tc2CoreTargIntf]` section.
  - These proofs are generic over the contents of the sections, and the template is one such layout.
- **The upload session** (`MemtoolUpload::start` and `wait`). See `flash.dfy`.
  - The operating system is a `Host` object holding directories, a map from path to file contents, and a log of events.
  - Creating the workspace, writing a file and spawning a process can each fail. Each one chooses freely whether it succeeds.
  - `start` is proved to have exactly the effect of the plan's steps up to the first failure. The plan's steps are: create the workspace, write the firmware, write the configuration, write the batch script, spawn Memtool with `-c <cfg> <batch>`.
  - `wait` returns normally only when Memtool exited with success.

`lines.dfy` models LF-separated text: joining lines, and splitting as `str::split('\n')` does. `paths.dfy` models `Path::join` with the Windows separator. `wrappers.dfy` holds `Option` and `Result`.

The code and its doc comment disagree about the port. The doc comment of `create_cfg` (`tricore-windows/src/flash.rs:84-87`) says the DAS port "can be selected freely". However, the `format!` call at line 89 has no placeholder, and line 206 fixes `DasPortSel=0`. The model follows the code:
- `CreateCfg` does not use its port argument (`CreateCfgIgnoresPort`);
- every configuration selects port 0.

## Model

| member | source | states |
|---|---|---|
| Paths.JoinPath | tricore-windows/src/flash.rs:27-46 | `Path::join` of a workspace directory and a file name; no contract of its own: `ParentAndFileNameOfJoin` and `JoinPathInjective` state that the join can be undone and is injective on plain names |
| Paths.ParentAndFileNameOfJoin | tricore-windows/src/flash.rs:27 | joining a plain file name to a directory can be undone: the parent of the result is the directory and its last component is the name |
| Paths.JoinPathInjective | tricore-windows/src/flash.rs:27 | distinct (directory, plain name) pairs give distinct joined paths |
| Batch.BatchScript | tricore-windows/src/flash.rs:37-44 | the `mtb` text for either mode; no contract of its own: `FullModeIsSevenCommands`, `FullModeLines`, `HaltModeIsTwoCommands`, `HaltModeLines`, `HaltScriptPrefixesFullScript` and `BatchOpensHexFile` state its properties |
| Batch.ProgramCommandsText | tricore-windows/src/flash.rs:38 | the five commands after `open_file`, joined by LF, are `select_all_sections` … `exit` with no LF after `exit` |
| Batch.FullScriptExtendsHaltScript | tricore-windows/src/flash.rs:37-44 | the full-mode text is the halt-mode text followed by the five programming commands joined by LF |
| Batch.FullModeIsSevenCommands | tricore-windows/src/flash.rs:38 | the full-mode text is exactly the seven commands `connect`, `open_file <hex>`, `select_all_sections`, `add_selected_sections`, `program`, `disconnect`, `exit` joined by LF |
| Batch.FullModeEndsWithExit | tricore-windows/src/flash.rs:38 | the full-mode text ends with `exit` and no trailing LF |
| Batch.HaltModeIsTwoCommands | tricore-windows/src/flash.rs:40-43 | the halt-mode text is `connect` and `open_file <hex>`, each ended by an LF, so it ends with an LF |
| Batch.FullModeLines | tricore-windows/src/flash.rs:38 | for a path without LF, splitting the full-mode text at LF gives back exactly the seven commands |
| Batch.HaltModeLines | tricore-windows/src/flash.rs:40-43 | for a path without LF, splitting the halt-mode text gives `connect`, `open_file <hex>` and an empty last piece |
| Batch.HaltScriptPrefixesFullScript | tricore-windows/src/flash.rs:37-44 | for the same path, the halt-mode text is a proper prefix of the full-mode text |
| Batch.BatchOpensHexFile | tricore-windows/src/flash.rs:37-44 | in both modes the file Memtool is told to open is exactly the substituted path |
| MemtoolConfig.Render | tricore-windows/src/flash.rs:90-318 | a template line renders to text without LF, and it starts with `[` exactly when it is a section header |
| MemtoolConfig.RenderAssigns | tricore-windows/src/flash.rs:90-318 | a rendered line starts with `key=` exactly when it is the setting of that key |
| MemtoolConfig.LayoutPortSelector | tricore-windows/src/flash.rs:206 | in any layout, the port selector is the only line that assigns `DasPortSel`, and it reads `DasPortSel=0` |
| MemtoolConfig.LayoutPortSection | tricore-windows/src/flash.rs:114-206 | in any layout, the nearest header above the port selector is `[Controller0.Core0.Tc2CoreTargIntf]` |
| MemtoolConfig.LayoutText | tricore-windows/src/flash.rs:89-319 | a layout's text splits back into its rendered lines, starts with `[Main]` and an LF, and ends with `[Controller0.Core0.Tc2CoreTargIntf.OnConnectScript]` with no LF after it |
| MemtoolConfig.LayoutTextLines | tricore-windows/src/flash.rs:88-320 | for given sections, the text's first line is `[Main]` and its last line is the `OnConnectScript` header; exactly one line assigns `DasPortSel`; it reads `DasPortSel=0` and lies in the target interface section |
| MemtoolConfig.LayoutTextStructure | tricore-windows/src/flash.rs:88-320 | the same structure for any text that is the text of some layout |
| MemtoolConfig.CreateCfg | tricore-windows/src/flash.rs:88-320 | `create_cfg` gives the text of a layout, so `LayoutTextStructure` applies to it |
| MemtoolConfig.CreateCfgLines | tricore-windows/src/flash.rs:89-319 | read back line by line, the configuration is exactly the template |
| MemtoolConfig.CreateCfgIgnoresPort | tricore-windows/src/flash.rs:88-89 | the configuration text does not depend on the requested UDAS port |
| Flash.Context | tricore-windows/src/flash.rs:24-59 | the `.context` message of each of the five steps (lines 25, 30, 35, 49, 59); no contract of its own: `Start` and `StartWithConfig` state that a failing step's error carries it |
| Flash.StepEvent | tricore-windows/src/flash.rs:24-59 | the effect on the host of one successful step of `start`; no contract of its own: `StartStep` states how each step event extends the host's log and files |
| Flash.StartPlan | tricore-windows/src/flash.rs:24-59 | the five step effects in source order; no contract of its own: `SuccessfulStartSpawnsLast` and `SuccessfulStartFiles` state its properties |
| Flash.StartEvents | tricore-windows/src/flash.rs:24-59 | the steps a start takes when a given step fails, or all of them; no contract of its own: `FailedStartNeverSpawns`, `SuccessfulStartSpawnsLast` and `StartStep` state its properties |
| Flash.FilesAfter | tricore-windows/src/flash.rs:29-48 | the files after a sequence of events, each write replacing one file's contents; no contract of its own: `SuccessfulStartFiles`, `SuccessfulStartWorkspace` and `BatchLoadsWrittenFirmware` state its value after a start |
| Flash.StepIndex | tricore-windows/src/flash.rs:24-59 | each of the five steps of `start` has a position below five |
| Flash.WorkspaceFiles | tricore-windows/src/flash.rs:27-46 | `input.hex`, `temp_config.cfg` and `batch.mtb` are distinct children of the workspace directory, with those names |
| Flash.NextStage | tricore-windows/src/flash.rs:24-59 | the step after a step is one position later, and only the spawn has no next step |
| Flash.StartStep | tricore-windows/src/flash.rs:24-59 | a host that shows the steps before a step, then that step's event, shows the steps up to the next one |
| Flash.FailedStartNeverSpawns | tricore-windows/src/flash.rs:24-59 | a start that fails at a step has done one event per earlier step, forming a proper prefix of the plan, and has not spawned Memtool |
| Flash.SuccessfulStartSpawnsLast | tricore-windows/src/flash.rs:51-59 | a successful start spawns Memtool once, as its last step, with the arguments `-c`, the configuration path and the batch path, in that order |
| Flash.SuccessfulStartFiles | tricore-windows/src/flash.rs:27-49 | after a successful start, the files are the old files with the firmware, the configuration and the batch script written at their workspace paths |
| Flash.SuccessfulStartWorkspace | tricore-windows/src/flash.rs:24-49 | when nothing lay inside the new workspace, a successful start leaves exactly `input.hex`, `temp_config.cfg` and `batch.mtb` inside it, and every file that existed before keeps its contents |
| Flash.BatchLoadsWrittenFirmware | tricore-windows/src/flash.rs:27-49 | after a successful start, the batch script in the workspace opens the workspace's `input.hex`, that file holds the firmware, and the configuration file holds the configuration text |
| Flash.WaitVerdict | tricore-windows/src/flash.rs:74-79 | `wait` returns normally exactly when the wait gave an exit status that reports success; its panic message starts with the `expect` message exactly when the wait failed, and is then that message, `: ` and the error's `Debug` text; an unsuccessful status panics with the `assert!` message |
| Flash.TempDir.constructor | tricore-windows/src/flash.rs:24-25 | a workspace handle records its directory |
| Flash.Child.constructor | tricore-windows/src/flash.rs:57-58 | a new child records its program and arguments and has not exited |
| Flash.Child.Wait | tricore-windows/src/flash.rs:75-78 | once the child has exited, waiting gives its status again; a successful wait records the status; a failed wait records nothing |
| Flash.Host.constructor | tricore-windows/src/flash.rs:51 | a host starts with the Memtool path and no directories, files or events |
| Flash.Host.CreateTempDir | tricore-windows/src/flash.rs:24-25 | for a name nothing on the host uses yet, creating the workspace either adds the directory and logs it, or changes nothing |
| Flash.Host.WriteFile | tricore-windows/src/flash.rs:29-30 | a write either replaces the file's contents and logs the write, or changes nothing |
| Flash.Host.Spawn | tricore-windows/src/flash.rs:57-59 | a spawn either returns a fresh child with the given program and arguments and logs it, or changes nothing but reports failure |
| Flash.MemtoolUpload.constructor | tricore-windows/src/flash.rs:62-65 | the session holds the spawned child and the workspace |
| Flash.MemtoolUpload.Start | tricore-windows/src/flash.rs:23-66 | in a workspace nothing on the host uses yet, the host's log grows by exactly the plan's steps before the failing one, or by all five, with the configuration text `CreateCfg(udasPort)`; the files are those writes applied to the old files; on success the session is fresh, its workspace is the given directory, and its child runs Memtool with `-c <cfg> <batch>` and has not exited; on failure the error names the failing step with that step's message |
| Flash.MemtoolUpload.StartWithConfig | tricore-windows/src/flash.rs:23-66 | in a workspace nothing on the host uses yet, the host's log grows by exactly the plan's steps before the failing one, or by all five; the files are those writes applied to the old files; on success the session is fresh, its workspace is the given directory, and its child runs Memtool with `-c <cfg> <batch>` and has not exited; on failure the error names the failing step with that step's message |
| Flash.MemtoolUpload.Wait | tricore-windows/src/flash.rs:74-81 | the outcome is the verdict on what waiting for the child gave, and the child's recorded exit status follows `Child.Wait` |

## Left out

- Real filesystem and process effects are not modelled. `TempDir::new`, `std::fs::write` and `Command::spawn` are host operations that may fail for any reason. An error keeps only its `Debug` text, which the host chooses freely.
- The random name `TempDir::new` chooses is the parameter `dir` of `Start`. That it is new is the precondition `host.Unused(dir)`: no directory has that name and no file lies inside it.
- Removing the workspace when the session is dropped is left out, as are all other drop behaviours.
- After a failed start the model's host still holds the workspace and the files written so far. The program removes them, because the `TempDir` is dropped on the early `?` return.
- `env!("MEMTOOL_PATH")` is the `memtoolPath` field of the host. It is fixed when the host is built.
- The `log::info!` calls at lines 60 and 80 are left out. They only write to the log.
- The firmware is an uninterpreted string. Its Intel HEX contents are never parsed.
- Paths follow `Path::join` with one `\` separator. Other Windows path rules are left out: drive letters, `..`, and `display()` of non-Unicode paths.
- A wait that never returns (lines 70-73) is left out. A wait either gives a status or fails.
- A panic in `wait` is modelled as the returned `Panicked` outcome, with the panic message. Unwinding and the process exit that follow are left out.
- The `anyhow` error `start` returns is modelled as the failing step, its context message and the underlying error. The backtrace and the way `anyhow` formats the chain are left out.
