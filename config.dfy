/**
 * The Memtool configuration file (`temp_config.cfg`) that `create_cfg`
 * renders: a fixed INI-style template, derived from Memtool's default for
 * the TC37xA family and adapted to a TC39x B-step triboard. The template is
 * kept as a sequence of typed lines (section headers, `key=value` settings,
 * and other text such as script directives, comments and blank lines); the
 * file is their texts joined by LF.
 *
 * Each section's lines are spread over a few small functions named after
 * it (`MainPart1` to `MainPart5`, `InitScriptPart1` to `InitScriptPart38`
 * and so on), each following the one numbered before it, in file order.
 * Checking that every literal line is well-formed is cheap for a few
 * lines at a time and costly for a whole section at once.
 */
module MemtoolConfig {
  import opened Wrappers
  import opened Lines

  /** The name between the brackets of a section header. */
  type Name = s: string | forall i | 0 <= i < |s| :: s[i] != LF

  /** The key of a `key=value` line: it holds no `=` and does not start like a header. */
  type Key = k: string | (forall i | 0 <= i < |k| :: k[i] != LF && k[i] != '=') && (k == [] || k[0] != '[')

  type Value = v: string | forall i | 0 <= i < |v| :: v[i] != LF

  /** A line that is neither a header nor a setting: it holds no `=` and does not start with `[`. */
  type Free = t: string | (forall i | 0 <= i < |t| :: t[i] != LF && t[i] != '=') && (t == [] || t[0] != '[')

  datatype IniLine =
    | Header(section: Name)
    | Entry(key: Key, value: Value)
    | Text(text: Free)

  /** The key that selects the DAS port of the target. */
  const PortSelKey: Key := "DasPortSel"

  const TargIntfName: Name := "Controller0.Core0.Tc2CoreTargIntf"

  const OnConnectScriptName: Name := TargIntfName + ".OnConnectScript"

  predicate SelectsPort(l: IniLine)
  {
    l.Entry? && l.key == PortSelKey
  }

  /** Any line of the template except the port selector. */
  type OtherLine = l: IniLine | !SelectsPort(l) witness Text("")

  /** A line inside a section that is not the port selector. */
  type BodyLine = l: IniLine | !l.Header? && !SelectsPort(l) witness Text("")

  function Sect(name: Name): OtherLine
  {
    Header(name)
  }

  function Pair(key: Key, value: Value): BodyLine
    requires key != PortSelKey
  {
    Entry(key, value)
  }

  function Plain(text: Free): BodyLine
  {
    Text(text)
  }

  /** A header line, that is, one that opens a section. */
  predicate IsHeader(line: string)
  {
    |line| > 0 && line[0] == '['
  }

  /** `line` assigns `key`: it starts with the key followed by `=`. */
  predicate Assigns(line: string, key: string)
  {
    |key| < |line| && line[..|key| + 1] == key + "="
  }

  /** The text of one line of the file. */
  function Render(l: IniLine): (line: string)
    ensures LF !in line
    ensures IsHeader(line) <==> l.Header?
  {
    match l
    case Header(name) => "[" + name + "]"
    case Entry(key, value) => key + "=" + value
    case Text(text) => text
  }

  /** A rendered line assigns a key exactly when it is the setting of that key. */
  lemma RenderAssigns(l: IniLine, key: Key)
    ensures Assigns(Render(l), key) <==> l.Entry? && l.key == key
  {
    var line := Render(l);
    var prefix := key + "=";
    if l.Entry? && l.key == key {
      assert line[..|key| + 1] == prefix;
    } else if |key| < |line| {
      // an index at which the line and `key=` differ
      var j: nat;
      match l {
        case Header(_) =>
          j := 0;
        case Text(t) =>
          j := |key|;
          assert line[j] == t[j] != '=';
        case Entry(k, _) =>
          if |k| < |key| {
            j := |k|;
            assert line[j] == '=' && prefix[j] == key[j] != '=';
          } else if |k| > |key| {
            j := |key|;
            assert line[j] == k[j] != '=';
          } else {
            j :| 0 <= j < |k| && k[j] != key[j];
            assert line[j] == k[j] && prefix[j] == key[j];
          }
      }
      assert line[..|key| + 1][j] != prefix[j];
    }
  }

  /** The texts of a sequence of lines. */
  function RenderAll(ls: seq<IniLine>): seq<string>
  {
    seq(|ls|, i requires 0 <= i < |ls| => Render(ls[i]))
  }

  /** The settings of `[Main]`: the file signature, the controller list and the descriptions Memtool shows. */
  function MainPart1(): seq<OtherLine>
  {
    [
      Pair("Signature", "UDE_TARGINFO_2.0"),
      Pair("MCUs", "Controller0")
    ]
  }

  function MainPart2(): seq<OtherLine>
  {
    [
      Pair("Description", "Triboard with TC39x B-Step (DAS)")
    ]
  }

  function MainPart3(): seq<OtherLine>
  {
    [
      Pair("Description1", "Init TLF35584 C-Step on connect")
    ]
  }

  function MainPart4(): seq<OtherLine>
  {
    [
      Pair("Description2", "switch off FLASH error traps")
    ]
  }

  function MainPart5(): seq<OtherLine>
  {
    [
      Pair("Architecture", "TriCore Aurix2G"),
      Pair("Vendor", "Starter Kits (DAS)"),
      Pair("Board", ""),
      Plain("")
    ]
  }

  /** `[Controller0]`: a TriCore TC39x B-step and its clocks. */
  function Controller0Part1(): seq<OtherLine>
  {
    [
      Sect("Controller0"),
      Pair("Family", "TriCore"),
      Pair("Type", "TC39xB"),
      Pair("Enabled", "1")
    ]
  }

  function Controller0Part2(): seq<OtherLine>
  {
    [
      Pair("IntClock", "100000"),
      Pair("ExtClock", "20000"),
      Plain("")
    ]
  }

  /** `[Controller0.Core0]`: the core is reached over TC2 JTAG. */
  function Core0(): seq<OtherLine>
  {
    [
      Sect("Controller0.Core0"),
      Pair("Protocol", "TC2_JTAG"),
      Pair("Enabled", "1"),
      Plain("")
    ]
  }

  /** `[Controller0.Core0.LoadedAddOn]`: Memtool is loaded. */
  function LoadedAddOn(): seq<OtherLine>
  {
    [
      Sect("Controller0.Core0.LoadedAddOn"),
      Pair("UDEMemtool", "1"),
      Plain("")
    ]
  }

  /** The lines between the `[Main]` header and the target interface header, in file order. */
  function HeadSections(): seq<OtherLine>
  {
    MainPart1() + MainPart2() + MainPart3() + MainPart4() + MainPart5() + Controller0Part1()
    + Controller0Part2() + Core0() + LoadedAddOn()
  }

  /** Target interface: the DAS transport, the DAS server to start and the JTAG options. */
  function TargIntfTransportPart1(): seq<BodyLine>
  {
    [
      Pair("PortType", "DAS"),
      Pair("CommDevSel", ""),
      Pair("MaxJtagClk", "5000"),
      Pair("DasTryStartSrv", "1")
    ]
  }

  function TargIntfTransportPart2(): seq<BodyLine>
  {
    [
      Pair("DasSrvPath", "servers\\udas\\udas.exe"),
      Pair("ConnOption", "Reset"),
      Pair("DiswdtOnReset", "1"),
      Pair("ExecInitCmds", "1")
    ]
  }

  function TargIntfTransportPart3(): seq<BodyLine>
  {
    [
      Pair("TargetPort", "Default"),
      Pair("CheckJtagId", "1"),
      Pair("ScanJTAG", "0"),
      Pair("Ocds1ViaPod", "0")
    ]
  }

  function TargIntfTransportPart4(): seq<BodyLine>
  {
    [
      Pair("EtksArbiterMode", "None"),
      Pair("RefreshJtag", "0"),
      Pair("RefreshHarr", "0"),
      Pair("ReenableOcds", "1")
    ]
  }

  function TargIntfTransportPart5(): seq<BodyLine>
  {
    [
      Pair("ReduceJtagClock", "0"),
      Pair("UseDap", "0"),
      Pair("DapMode", "2PIN")
    ]
  }

  function TargIntfTransportPart6(): seq<BodyLine>
  {
    [
      Pair("SetDebugEnableAb1DisablePin", "0")
    ]
  }

  /** Target interface: reset behaviour and boot passwords. */
  function TargIntfResetPart1(): seq<BodyLine>
  {
    [
      Pair("ResetWaitTime", "500"),
      Pair("ResetMode", "Default"),
      Pair("OpenDrainReset", "0"),
      Pair("ExecOnConnectCmds", "0")
    ]
  }

  function TargIntfResetPart2(): seq<BodyLine>
  {
    [
      Pair("ExecOnExtRstCmds", "0"),
      Pair("ResetPulseLen", "10"),
      Pair("AddResetDelay", "0"),
      Pair("ExecEmemInitOnReset", "0x0")
    ]
  }

  function TargIntfResetPart3(): seq<BodyLine>
  {
    [
      Pair("UnlockInterface", "0"),
      Pair("BootPasswd0", "0x0"),
      Pair("BootPasswd1", "0x0"),
      Pair("BootPasswd2", "0x0")
    ]
  }

  function TargIntfResetPart4(): seq<BodyLine>
  {
    [
      Pair("BootPasswd3", "0x0"),
      Pair("BootPasswd4", "0x0"),
      Pair("BootPasswd5", "0x0"),
      Pair("BootPasswd6", "0x0")
    ]
  }

  function TargIntfResetPart5(): seq<BodyLine>
  {
    [
      Pair("BootPasswd7", "0x0"),
      Pair("PasswordFile", "")
    ]
  }

  /** Target interface: what happens on connect. */
  function TargIntfConnectPart1(): seq<BodyLine>
  {
    [
      Pair("HandleBmiHeader", "0"),
      Pair("SetAutOkOnConnect", "0"),
      Pair("DontUseWdtSusp", "0")
    ]
  }

  function TargIntfConnectPart2(): seq<BodyLine>
  {
    [
      Pair("InitCore0RamOnConnect", "0")
    ]
  }

  function TargIntfConnectPart3(): seq<BodyLine>
  {
    [
      Pair("IgnoreFailedHaltAfterResetOnConnect", "0")
    ]
  }

  function TargIntfConnectPart4(): seq<BodyLine>
  {
    [
      Pair("TrySystemResetAfterFailedHardwareReset", "0")
    ]
  }

  function TargIntfConnectPart5(): seq<BodyLine>
  {
    [
      Pair("RunStabilityTestOnConnect", "0")
    ]
  }

  function TargIntfConnectPart6(): seq<BodyLine>
  {
    [
      Pair("RunStabilityTestCycles", "10")
    ]
  }

  function TargIntfConnectPart7(): seq<BodyLine>
  {
    [
      Pair("IgnoreFailedEnableOcdsOnConnect", "0")
    ]
  }

  function TargIntfConnectPart8(): seq<BodyLine>
  {
    [
      Pair("UseLbistAwareConnect", "0"),
      Pair("TC4InitCore0Ram", "0")
    ]
  }

  function TargIntfConnectPart9(): seq<BodyLine>
  {
    [
      Pair("EnableAutomaticCsrmStart", "0")
    ]
  }

  function TargIntfConnectPart10(): seq<BodyLine>
  {
    [
      Pair("EnableAutomaticCsrmRunControl", "0"),
      Pair("MaxTry", "1")
    ]
  }

  function TargIntfConnectPart11(): seq<BodyLine>
  {
    [
      Pair("UseDflashAccessFilter", "1"),
      Pair("DetectResetWhileHalted", "1")
    ]
  }

  function TargIntfConnectPart12(): seq<BodyLine>
  {
    [
      Pair("UseTranslateAddr", "1"),
      Pair("DownloadToAllRams", "0")
    ]
  }

  /** Target interface: reset halting, the application handshake and run control. */
  function TargIntfRunControlPart1(): seq<BodyLine>
  {
    [
      Pair("HaltAfterReset", "0"),
      Pair("HaltAfterHardwareReset", "0")
    ]
  }

  function TargIntfRunControlPart2(): seq<BodyLine>
  {
    [
      Pair("TargetAppHandshakeMode", "None")
    ]
  }

  function TargIntfRunControlPart3(): seq<BodyLine>
  {
    [
      Pair("TargetAppHandshakeTimeout", "100")
    ]
  }

  function TargIntfRunControlPart4(): seq<BodyLine>
  {
    [
      Pair("TargetAppHandshakeParameter0", "0x0")
    ]
  }

  function TargIntfRunControlPart5(): seq<BodyLine>
  {
    [
      Pair("TargetAppHandshakeParameter1", "0x0")
    ]
  }

  function TargIntfRunControlPart6(): seq<BodyLine>
  {
    [
      Pair("TargetAppHandshakeParameter2", "0x0")
    ]
  }

  function TargIntfRunControlPart7(): seq<BodyLine>
  {
    [
      Pair("TargetAppHandshakeParameter3", "0x0")
    ]
  }

  function TargIntfRunControlPart8(): seq<BodyLine>
  {
    [
      Pair("SimioAddr", "g_JtagSimioAccess"),
      Pair("UseStmForPtm", "1"),
      Pair("ExecOnStartCmds", "0"),
      Pair("ExecOnHaltCmds", "0")
    ]
  }

  function TargIntfRunControlPart9(): seq<BodyLine>
  {
    [
      Pair("ExecOnHaltCmdsWhileHaltedPeriod", "0")
    ]
  }

  function TargIntfRunControlPart10(): seq<BodyLine>
  {
    [
      Pair("UseTriggerToBreak", "1"),
      Pair("UseTL2OnHalt", "1"),
      Pair("UseOstateStable", "1")
    ]
  }

  function TargIntfRunControlPart11(): seq<BodyLine>
  {
    [
      Pair("AllowJtagResetWhileRunning", "1"),
      Pair("MaxAccRetry", "1")
    ]
  }

  /** Target interface: memory access and the DAS server, up to the port selector. */
  function TargIntfDasServerPart1(): seq<BodyLine>
  {
    [
      Pair("AccRetryDelay", "10"),
      Pair("DebugResetOnDisconnect", "0")
    ]
  }

  function TargIntfDasServerPart2(): seq<BodyLine>
  {
    [
      Pair("ReadPmcsrWhileRunning", "1"),
      Pair("IvIcacheOnHalt", "1"),
      Pair("IvPlbOnHalt", "1")
    ]
  }

  function TargIntfDasServerPart3(): seq<BodyLine>
  {
    [
      Pair("SuspendSlaveCores", "0"),
      Pair("FilterMemAcc", "1"),
      Pair("PtmRefClock", "0"),
      Pair("DasDllPath", "das_api.dll")
    ]
  }

  function TargIntfDasServerPart4(): seq<BodyLine>
  {
    [
      Pair("DasHost", ""),
      Pair("DasStopSrv", "1"),
      Pair("DasResetHelperBreakAddr", "main"),
      Pair("DasResetMode", "2")
    ]
  }

  function TargIntfDasServerPart5(): seq<BodyLine>
  {
    [
      Pair("DasRemoveLogFile", "0"),
      Pair("DasForwardSerNum", "0"),
      Pair("DasSrvSel", "-1"),
      Pair("DasPortType", "0")
    ]
  }

  /** The settings of `[Controller0.Core0.Tc2CoreTargIntf]` that come before the port selector. */
  function TargIntfBeforePort(): seq<BodyLine>
  {
    TargIntfTransportPart1() + TargIntfTransportPart2() + TargIntfTransportPart3()
    + TargIntfTransportPart4() + TargIntfTransportPart5() + TargIntfTransportPart6()
    + TargIntfResetPart1() + TargIntfResetPart2() + TargIntfResetPart3() + TargIntfResetPart4()
    + TargIntfResetPart5() + TargIntfConnectPart1() + TargIntfConnectPart2()
    + TargIntfConnectPart3() + TargIntfConnectPart4() + TargIntfConnectPart5()
    + TargIntfConnectPart6() + TargIntfConnectPart7() + TargIntfConnectPart8()
    + TargIntfConnectPart9() + TargIntfConnectPart10() + TargIntfConnectPart11()
    + TargIntfConnectPart12() + TargIntfRunControlPart1() + TargIntfRunControlPart2()
    + TargIntfRunControlPart3() + TargIntfRunControlPart4() + TargIntfRunControlPart5()
    + TargIntfRunControlPart6() + TargIntfRunControlPart7() + TargIntfRunControlPart8()
    + TargIntfRunControlPart9() + TargIntfRunControlPart10() + TargIntfRunControlPart11()
    + TargIntfDasServerPart1() + TargIntfDasServerPart2() + TargIntfDasServerPart3()
    + TargIntfDasServerPart4() + TargIntfDasServerPart5()
  }

  /** Target interface: the settings after the port selector, and the blank line that ends the section. */
  function TargIntfAfterPortPart1(): seq<OtherLine>
  {
    [
      Pair("DasCmdTimeout", "1000"),
      Pair("DasWaitAfterConnect", "0"),
      Pair("DasDisconnectSrv", "0"),
      Pair("DasApiLogging", "0")
    ]
  }

  function TargIntfAfterPortPart2(): seq<OtherLine>
  {
    [
      Plain("")
    ]
  }

  /** `[Controller0.Core0.Tc2CoreTargIntf.InitScript]`: the TLF35584 C-step is initialised on connect and the FLASH error traps are switched off. */
  function InitScriptPart1(): seq<OtherLine>
  {
    [
      Sect(TargIntfName + ".InitScript")
    ]
  }

  function InitScriptPart2(): seq<OtherLine>
  {
    [
      Plain("; Init TLF35584 C-Step on connect")
    ]
  }

  function InitScriptPart3(): seq<OtherLine>
  {
    [
      Plain("SET 0xF0036034  0x11100002")
    ]
  }

  function InitScriptPart4(): seq<OtherLine>
  {
    [
      Plain("SET 0xF0001E00  0x8")
    ]
  }

  function InitScriptPart5(): seq<OtherLine>
  {
    [
      Plain("SET 0xF0001E10  0x20003C04")
    ]
  }

  function InitScriptPart6(): seq<OtherLine>
  {
    [
      Plain("SET 0xF0001E04  0x1")
    ]
  }

  function InitScriptPart7(): seq<OtherLine>
  {
    [
      Plain("SET 0xF0001E14  0x14000000")
    ]
  }

  function InitScriptPart8(): seq<OtherLine>
  {
    [
      Plain("SET 0xF0001E24  0x501")
    ]
  }

  function InitScriptPart9(): seq<OtherLine>
  {
    [
      Plain("SET 0xF0001E48  0x00020000")
    ]
  }

  function InitScriptPart10(): seq<OtherLine>
  {
    [
      Plain("SET 0xF003AF10  0x98000000")
    ]
  }

  function InitScriptPart11(): seq<OtherLine>
  {
    [
      Plain("SET 0xF003AF14  0x10980000")
    ]
  }

  function InitScriptPart12(): seq<OtherLine>
  {
    [
      Plain("SET 0xF003AF40  0x30330333")
    ]
  }

  function InitScriptPart13(): seq<OtherLine>
  {
    [
      Plain("SET 0xF003AE10  0x10980000")
    ]
  }

  function InitScriptPart14(): seq<OtherLine>
  {
    [
      Plain("SET 0xF003AE40  0x33333033"),
      Plain("WAIT 5")
    ]
  }

  function InitScriptPart15(): seq<OtherLine>
  {
    [
      Plain("SET 0xF0001E54  0xFFF")
    ]
  }

  function InitScriptPart16(): seq<OtherLine>
  {
    [
      Plain("SET 0xF0001E60  0x17A10001")
    ]
  }

  function InitScriptPart17(): seq<OtherLine>
  {
    [
      Plain("SET 0xF0001E54 0x200"),
      Plain("WAIT 5")
    ]
  }

  function InitScriptPart18(): seq<OtherLine>
  {
    [
      Plain("SET 0xF0001E10  0x21003C04")
    ]
  }

  function InitScriptPart19(): seq<OtherLine>
  {
    [
      Plain("SET 0xF0001E64 0x8756"),
      Plain("WAIT 5"),
      Plain("SET 0xF0001E54 0x200"),
      Plain("WAIT 5")
    ]
  }

  function InitScriptPart20(): seq<OtherLine>
  {
    [
      Plain("SET 0xF0001E54 0x400"),
      Plain("SET 0xF0001E64 0x87DE"),
      Plain("WAIT 5")
    ]
  }

  function InitScriptPart21(): seq<OtherLine>
  {
    [
      Plain("SET 0xF0001E54 0x200"),
      Plain("WAIT 5"),
      Plain("SET 0xF0001E54 0x400")
    ]
  }

  function InitScriptPart22(): seq<OtherLine>
  {
    [
      Plain("SET 0xF0001E64 0x86AD"),
      Plain("WAIT 5"),
      Plain("SET 0xF0001E54 0x200"),
      Plain("WAIT 5")
    ]
  }

  function InitScriptPart23(): seq<OtherLine>
  {
    [
      Plain("SET 0xF0001E54 0x400"),
      Plain("SET 0xF0001E64 0x8625"),
      Plain("WAIT 5")
    ]
  }

  function InitScriptPart24(): seq<OtherLine>
  {
    [
      Plain("SET 0xF0001E54 0x200"),
      Plain("WAIT 5"),
      Plain("SET 0xF0001E54 0x400")
    ]
  }

  function InitScriptPart25(): seq<OtherLine>
  {
    [
      Plain("SET 0xF0001E64 0x8D27"),
      Plain("WAIT 5"),
      Plain("SET 0xF0001E54 0x200"),
      Plain("WAIT 5")
    ]
  }

  function InitScriptPart26(): seq<OtherLine>
  {
    [
      Plain("SET 0xF0001E54 0x400"),
      Plain("SET 0xF0001E64 0x8A01"),
      Plain("WAIT 5")
    ]
  }

  function InitScriptPart27(): seq<OtherLine>
  {
    [
      Plain("SET 0xF0001E54 0x200"),
      Plain("WAIT 5"),
      Plain("SET 0xF0001E54 0x400")
    ]
  }

  function InitScriptPart28(): seq<OtherLine>
  {
    [
      Plain("SET 0xF0001E64 0x87BE"),
      Plain("WAIT 5"),
      Plain("SET 0xF0001E54 0x200"),
      Plain("WAIT 5")
    ]
  }

  function InitScriptPart29(): seq<OtherLine>
  {
    [
      Plain("SET 0xF0001E54 0x400"),
      Plain("SET 0xF0001E64 0x8668"),
      Plain("WAIT 5")
    ]
  }

  function InitScriptPart30(): seq<OtherLine>
  {
    [
      Plain("SET 0xF0001E54 0x200"),
      Plain("WAIT 5"),
      Plain("SET 0xF0001E54 0x400")
    ]
  }

  function InitScriptPart31(): seq<OtherLine>
  {
    [
      Plain("SET 0xF0001E64 0x877D"),
      Plain("WAIT 5"),
      Plain("SET 0xF0001E54 0x200"),
      Plain("WAIT 5")
    ]
  }

  function InitScriptPart32(): seq<OtherLine>
  {
    [
      Plain("SET 0xF0001E54 0x400"),
      Plain("SET 0xF0001E64 0x8795"),
      Plain("WAIT 5")
    ]
  }

  function InitScriptPart33(): seq<OtherLine>
  {
    [
      Plain("SET 0xF0001E54 0x200"),
      Plain("WAIT 5"),
      Plain("SET 0xF0001E54 0x400"),
      Plain("WAIT 5")
    ]
  }

  function InitScriptPart34(): seq<OtherLine>
  {
    [
      Plain(""),
      Plain("; switch off FLASH error traps")
    ]
  }

  function InitScriptPart35(): seq<OtherLine>
  {
    [
      Plain("set 0xF8801104 0x10000"),
      Plain("set 0xF8821104 0x10000")
    ]
  }

  function InitScriptPart36(): seq<OtherLine>
  {
    [
      Plain("set 0xF8841104 0x10000"),
      Plain("set 0xF8861104 0x10000")
    ]
  }

  function InitScriptPart37(): seq<OtherLine>
  {
    [
      Plain("set 0xF8881104 0x10000"),
      Plain("set 0xF88C1104 0x10000")
    ]
  }

  function InitScriptPart38(): seq<OtherLine>
  {
    [
      Plain("set 0xF8040048 0xC0000000"),
      Plain("")
    ]
  }

  /** The empty `OnStartScript` section. */
  function OnStartScript(): seq<OtherLine>
  {
    [
      Sect(TargIntfName + ".OnStartScript"),
      Plain("")
    ]
  }

  /** The empty `OnHaltScript` section. */
  function OnHaltScript(): seq<OtherLine>
  {
    [
      Sect(TargIntfName + ".OnHaltScript"),
      Plain("")
    ]
  }

  /** `[Controller0.Core0.Tc2CoreTargIntf.Suspend]`: STM0 to STM5 are suspended while halted. */
  function SuspendPart1(): seq<OtherLine>
  {
    [
      Sect(TargIntfName + ".Suspend"),
      Pair("STM0", "1"),
      Pair("STM1", "1"),
      Pair("STM2", "1")
    ]
  }

  function SuspendPart2(): seq<OtherLine>
  {
    [
      Pair("STM3", "1"),
      Pair("STM4", "1"),
      Pair("STM5", "1"),
      Plain("")
    ]
  }

  /** `[Controller0.PFLASH]`: enabled and programmed by default. */
  function Pflash(): seq<OtherLine>
  {
    [
      Sect("Controller0.PFLASH"),
      Pair("Enabled", "1"),
      Pair("EnableMemtoolByDefault", "1"),
      Plain("")
    ]
  }

  /** `[Controller0.DF_EEPROM]`: enabled and programmed by default. */
  function DfEeprom(): seq<OtherLine>
  {
    [
      Sect("Controller0.DF_EEPROM"),
      Pair("Enabled", "1"),
      Pair("EnableMemtoolByDefault", "1"),
      Plain("")
    ]
  }

  /** `[Controller0.DF_UCBS]`: enabled and programmed by default; two blank lines follow it. */
  function DfUcbsPart1(): seq<OtherLine>
  {
    [
      Sect("Controller0.DF_UCBS"),
      Pair("Enabled", "1"),
      Pair("EnableMemtoolByDefault", "1"),
      Plain("")
    ]
  }

  function DfUcbsPart2(): seq<OtherLine>
  {
    [
      Plain("")
    ]
  }

  /** Everything after the port selector up to, but not including, the last header. */
  function TailSections(): seq<OtherLine>
  {
    TargIntfAfterPortPart1() + TargIntfAfterPortPart2() + InitScriptPart1() + InitScriptPart2()
    + InitScriptPart3() + InitScriptPart4() + InitScriptPart5() + InitScriptPart6()
    + InitScriptPart7() + InitScriptPart8() + InitScriptPart9() + InitScriptPart10()
    + InitScriptPart11() + InitScriptPart12() + InitScriptPart13() + InitScriptPart14()
    + InitScriptPart15() + InitScriptPart16() + InitScriptPart17() + InitScriptPart18()
    + InitScriptPart19() + InitScriptPart20() + InitScriptPart21() + InitScriptPart22()
    + InitScriptPart23() + InitScriptPart24() + InitScriptPart25() + InitScriptPart26()
    + InitScriptPart27() + InitScriptPart28() + InitScriptPart29() + InitScriptPart30()
    + InitScriptPart31() + InitScriptPart32() + InitScriptPart33() + InitScriptPart34()
    + InitScriptPart35() + InitScriptPart36() + InitScriptPart37() + InitScriptPart38()
    + OnStartScript() + OnHaltScript() + SuspendPart1() + SuspendPart2() + Pflash() + DfEeprom()
    + DfUcbsPart1() + DfUcbsPart2()
  }

  /** The port selector: always port 0. */
  const PortLine: IniLine := Entry(PortSelKey, "0")

  /** The header that opens the file. */
  const MainHeader: OtherLine := Sect("Main")

  /** The header of the target interface section, which holds the port selector. */
  const TargIntfHeader: OtherLine := Sect(TargIntfName)

  /** The header that closes the file: the `OnConnectScript` section, left empty. */
  const LastHeader: OtherLine := Sect(OnConnectScriptName)

  /**
   * How the template is laid out: the `[Main]` header, the lines up to the
   * target interface header, that header and its settings up to the port
   * selector, the port selector, the remaining lines, and the
   * `OnConnectScript` header last.
   */
  function Layout(head: seq<OtherLine>, settings: seq<BodyLine>, tail: seq<OtherLine>): seq<IniLine>
  {
    [MainHeader] + head + [TargIntfHeader] + settings + [PortLine] + tail + [LastHeader]
  }

  /** The whole template, line by line. */
  const Template: seq<IniLine> := Layout(HeadSections(), TargIntfBeforePort(), TailSections())

  /** The header line that encloses line `i`: the nearest header at or above it, if any. */
  function EnclosingHeader(lines: seq<string>, i: int): (h: Option<string>)
    requires i < |lines|
    ensures h.Some? ==> IsHeader(h.value)
    decreases i
  {
    if i < 0 then None
    else if IsHeader(lines[i]) then Some(lines[i])
    else EnclosingHeader(lines, i - 1)
  }

  /** Lines that are not headers do not change which header encloses a position. */
  lemma {:induction false} SkipBodyLines(lines: seq<string>, lo: int, hi: int)
    requires -1 <= lo <= hi < |lines|
    requires forall j | lo < j <= hi :: !IsHeader(lines[j])
    ensures EnclosingHeader(lines, hi) == EnclosingHeader(lines, lo)
    decreases hi - lo
  {
    if lo < hi {
      SkipBodyLines(lines, lo, hi - 1);
    }
  }

  /**
   * Whatever the sections hold, the port selector is the only line of a
   * layout that assigns `DasPortSel`, and it selects port 0.
   */
  lemma LayoutPortSelector(head: seq<OtherLine>, settings: seq<BodyLine>, tail: seq<OtherLine>)
    ensures var lines := RenderAll(Layout(head, settings, tail));
      var port := 1 + |head| + 1 + |settings|;
      && port < |lines|
      && lines[port] == "DasPortSel=0"
      && forall i | 0 <= i < |lines| :: Assigns(lines[i], PortSelKey) <==> i == port
  {
    var ls := Layout(head, settings, tail);
    var lines := RenderAll(ls);
    var port := 1 + |head| + 1 + |settings|;
    forall i | 0 <= i < |lines|
      ensures Assigns(lines[i], PortSelKey) <==> i == port
    {
      RenderAssigns(ls[i], PortSelKey);
      if i != port {
        assert !SelectsPort(ls[i]);
      }
    }
  }

  /** Whatever the sections hold, the port selector lies in the target interface section. */
  lemma LayoutPortSection(head: seq<OtherLine>, settings: seq<BodyLine>, tail: seq<OtherLine>)
    ensures var lines := RenderAll(Layout(head, settings, tail));
      var port := 1 + |head| + 1 + |settings|;
      && port < |lines|
      && EnclosingHeader(lines, port) == Some("[" + TargIntfName + "]")
  {
    var ls := Layout(head, settings, tail);
    var lines := RenderAll(ls);
    var port := 1 + |head| + 1 + |settings|;
    forall j | 1 + |head| < j <= port
      ensures !IsHeader(lines[j])
    {
      assert ls[j] == if j == port then PortLine else settings[j - |head| - 2];
    }
    SkipBodyLines(lines, 1 + |head|, port);
  }

  /**
   * The text of a layout: its lines joined by LF. Split again it gives back
   * exactly those lines; it opens with `[Main]` and an LF and closes with
   * the `OnConnectScript` header, with no LF after it.
   */
  function LayoutText(head: seq<OtherLine>, settings: seq<BodyLine>, tail: seq<OtherLine>): (text: string)
    ensures Split(text) == RenderAll(Layout(head, settings, tail))
    ensures IsStrictPrefix("[Main]\n", text)
    ensures EndsWith(text, "[" + OnConnectScriptName + "]")
  {
    var ls := Layout(head, settings, tail);
    // the rendered lines, written out rather than through `RenderAll`
    var lines := seq(|ls|, i requires 0 <= i < |ls| => Render(ls[i]));
    assert lines == RenderAll(ls);
    assert lines[0] == "[Main]";
    assert lines[|lines| - 1] == "[" + OnConnectScriptName + "]";
    assert SingleLines(lines);
    SplitJoin(lines);
    JoinFirst(lines);
    JoinLast(lines);
    Join(lines)
  }

  /** `cfg` is the text of some layout. */
  ghost predicate IsLayoutText(cfg: string)
  {
    exists head: seq<OtherLine>, settings: seq<BodyLine>, tail: seq<OtherLine> :: cfg == LayoutText(head, settings, tail)
  }

  /**
   * The structure every layout text has: its first line is `[Main]` and its
   * last line the `OnConnectScript` header; exactly one line, at `port`,
   * starts with `DasPortSel=`; it reads `DasPortSel=0` and belongs to the
   * `[Controller0.Core0.Tc2CoreTargIntf]` section.
   */
  lemma LayoutTextStructure(cfg: string) returns (port: nat)
    requires IsLayoutText(cfg)
    ensures var lines := Split(cfg);
      && lines[0] == "[Main]"
      && lines[|lines| - 1] == "[" + OnConnectScriptName + "]"
      && port < |lines|
      && lines[port] == "DasPortSel=0"
      && (forall i | 0 <= i < |lines| :: Assigns(lines[i], PortSelKey) <==> i == port)
      && EnclosingHeader(lines, port) == Some("[" + TargIntfName + "]")
  {
    var head: seq<OtherLine>, settings: seq<BodyLine>, tail: seq<OtherLine> :| cfg == LayoutText(head, settings, tail);
    port := LayoutTextLines(head, settings, tail);
  }

  /** `LayoutTextStructure` for the text of given sections. */
  lemma LayoutTextLines(head: seq<OtherLine>, settings: seq<BodyLine>, tail: seq<OtherLine>) returns (port: nat)
    ensures var lines := Split(LayoutText(head, settings, tail));
      && lines[0] == "[Main]"
      && lines[|lines| - 1] == "[" + OnConnectScriptName + "]"
      && port < |lines|
      && lines[port] == "DasPortSel=0"
      && (forall i | 0 <= i < |lines| :: Assigns(lines[i], PortSelKey) <==> i == port)
      && EnclosingHeader(lines, port) == Some("[" + TargIntfName + "]")
  {
    var lines := RenderAll(Layout(head, settings, tail));
    assert Split(LayoutText(head, settings, tail)) == lines;
    LayoutPortSelector(head, settings, tail);
    LayoutPortSection(head, settings, tail);
    port := 1 + |head| + 1 + |settings|;
  }

  /**
   * `create_cfg`: the text of the configuration file. The port argument is
   * not used, as the template has no placeholder for it. The text is laid
   * out as every layout text is (see `LayoutTextStructure`).
   */
  function CreateCfg(udasPort: nat): (cfg: string)
    ensures IsLayoutText(cfg)
  {
    LayoutText(HeadSections(), TargIntfBeforePort(), TailSections())
  }

  /** Read back line by line, the configuration is the template. */
  lemma CreateCfgLines(udasPort: nat)
    ensures Split(CreateCfg(udasPort)) == RenderAll(Template)
  {
  }

  /** Whatever port is asked for, the configuration is the same text. */
  lemma CreateCfgIgnoresPort(p: nat, q: nat)
    ensures CreateCfg(p) == CreateCfg(q)
  {
  }
}
