/**
 * The Memtool batch script (`batch.mtb`): the commands Memtool runs when it
 * is started with a batch file, one command per line.
 */
module Batch {
  import opened Wrappers
  import opened Lines

  /** The command that makes Memtool load a HEX file, followed by one space and the path. */
  const OpenFile: string := "open_file "

  /** The commands that follow `open_file` in a full programming run. */
  const ProgramCommands: seq<string> := ["select_all_sections", "add_selected_sections", "program", "disconnect", "exit"]

  /**
   * The commands of a full programming run, in the order Memtool runs them:
   * connect, load the HEX file, select and add every section, program,
   * disconnect and exit.
   */
  function FullProgramCommands(hexPath: string): seq<string>
  {
    ["connect", OpenFile + hexPath] + ProgramCommands
  }

  /**
   * The text `MemtoolUpload::start` writes to `batch.mtb`. Without
   * `haltMemtool` it programs the device and exits; with it Memtool only
   * connects and loads the file, then waits for an operator. The path is
   * substituted as it is, without quoting.
   */
  function BatchScript(haltMemtool: bool, hexPath: string): string
  {
    if !haltMemtool then
      "connect\n" + "open_file " + hexPath + "\n" + "select_all_sections\n" + "add_selected_sections\n"
      + "program\n" + "disconnect\n" + "exit"
    else
      "connect\n" + "open_file " + hexPath + "\n"
  }

  /** The full-mode script is the halt-mode script followed by the commands after `open_file`. */
  lemma FullScriptExtendsHaltScript(hexPath: string)
    ensures BatchScript(false, hexPath) == BatchScript(true, hexPath) + Join(ProgramCommands)
  {
    ProgramCommandsText();
    var halt := BatchScript(true, hexPath);
    var s1 := halt + "select_all_sections\n";
    var s2 := s1 + "add_selected_sections\n";
    var s3 := s2 + "program\n";
    var s4 := s3 + "disconnect\n";
    assert s4 + "exit" == halt + ("select_all_sections\n" + "add_selected_sections\n" + "program\n" + "disconnect\n" + "exit");
  }

  /** The text of the commands after `open_file`. */
  lemma ProgramCommandsText()
    ensures Join(ProgramCommands)
      == "select_all_sections\n" + "add_selected_sections\n" + "program\n" + "disconnect\n" + "exit"
  {
    var c := ProgramCommands;
    assert c[1..] == ["add_selected_sections", "program", "disconnect", "exit"];
    assert c[1..][1..] == ["program", "disconnect", "exit"];
    assert c[1..][1..][1..] == ["disconnect", "exit"];
  }

  /** The halt-mode script is `connect` and the `open_file` command, each followed by an LF. */
  lemma HaltScriptText(hexPath: string)
    ensures BatchScript(true, hexPath) == "connect" + [LF] + (OpenFile + hexPath) + [LF]
  {
    assert "connect\n" == "connect" + [LF];
  }

  /** The full-mode script is the seven commands joined by LF. */
  lemma FullModeIsSevenCommands(hexPath: string)
    ensures BatchScript(false, hexPath) == Join(FullProgramCommands(hexPath))
  {
    JoinConsCons("connect", OpenFile + hexPath, ProgramCommands);
    FullScriptExtendsHaltScript(hexPath);
    HaltScriptText(hexPath);
  }

  /** The full-mode script ends with `exit`, with no LF after it. */
  lemma FullModeEndsWithExit(hexPath: string)
    ensures EndsWith(BatchScript(false, hexPath), "exit")
  {
    var rest := Join(ProgramCommands);
    ProgramCommandsText();
    EndsWithAppend("select_all_sections\n" + "add_selected_sections\n" + "program\n" + "disconnect\n", "exit", "exit");
    FullScriptExtendsHaltScript(hexPath);
    EndsWithAppend(BatchScript(true, hexPath), rest, "exit");
  }

  /**
   * The halt-mode script is `connect` and the `open_file` command, each
   * ended by an LF: the lines are those two commands and an empty last piece.
   */
  lemma HaltModeIsTwoCommands(hexPath: string)
    ensures BatchScript(true, hexPath) == Join(FullProgramCommands(hexPath)[..2] + [""])
    ensures EndsWith(BatchScript(true, hexPath), [LF])
  {
    var c := FullProgramCommands(hexPath)[..2] + [""];
    assert c == ["connect", OpenFile + hexPath, ""];
    assert c[1..][1..] == [""];
    assert Join(c[1..]) == OpenFile + hexPath + "\n";
  }

  /** Read back line by line, a full-mode script gives exactly the seven commands. */
  lemma FullModeLines(hexPath: string)
    requires LF !in hexPath
    ensures Split(BatchScript(false, hexPath)) == FullProgramCommands(hexPath)
  {
    var c := FullProgramCommands(hexPath);
    assert LF !in OpenFile + hexPath;
    assert SingleLines(c);
    FullModeIsSevenCommands(hexPath);
    SplitJoin(c);
  }

  /** Read back line by line, a halt-mode script gives `connect`, the `open_file` command and an empty last piece. */
  lemma HaltModeLines(hexPath: string)
    requires LF !in hexPath
    ensures Split(BatchScript(true, hexPath)) == ["connect", OpenFile + hexPath, ""]
  {
    var c := FullProgramCommands(hexPath)[..2] + [""];
    assert c == ["connect", OpenFile + hexPath, ""];
    assert LF !in OpenFile + hexPath;
    assert SingleLines(c);
    HaltModeIsTwoCommands(hexPath);
    SplitJoin(c);
  }

  /** For the same HEX path, the halt-mode script is a proper prefix of the full-mode script. */
  lemma HaltScriptPrefixesFullScript(hexPath: string)
    ensures IsStrictPrefix(BatchScript(true, hexPath), BatchScript(false, hexPath))
  {
    var halt := BatchScript(true, hexPath);
    var full := BatchScript(false, hexPath);
    FullScriptExtendsHaltScript(hexPath);
    ProgramCommandsText();
    assert full[..|halt|] == halt;
  }

  /**
   * The file a batch script makes Memtool load: the argument of its second
   * line, when that line is an `open_file` command.
   */
  function OpenedFile(mtb: string): Option<string>
  {
    var lines := Split(mtb);
    if |lines| >= 2 && |OpenFile| <= |lines[1]| && lines[1][..|OpenFile|] == OpenFile
    then Some(lines[1][|OpenFile|..])
    else None
  }

  /** In both modes Memtool loads exactly the file whose path was substituted. */
  lemma BatchOpensHexFile(haltMemtool: bool, hexPath: string)
    requires LF !in hexPath
    ensures OpenedFile(BatchScript(haltMemtool, hexPath)) == Some(hexPath)
  {
    if haltMemtool {
      HaltModeLines(hexPath);
    } else {
      FullModeLines(hexPath);
    }
    assert (OpenFile + hexPath)[..|OpenFile|] == OpenFile;
    assert (OpenFile + hexPath)[|OpenFile|..] == hexPath;
  }
}
