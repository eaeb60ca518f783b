/**
 * `DotnetWorkloadTest`: the workload scenario. `Execute` creates its project
 * directory and, when the Workload flag is set, installs `wasm-tools`, lists
 * it (expected present), uninstalls it and lists it again (expected absent).
 */
module DotnetWorkload {
  import opened Wrappers
  import opened Text
  import opened Paths
  import opened SdkCommands
  import SdkTemplate

  /**
   * The properties of one `DotnetWorkloadTest` object. `commandsText` is
   * what `Commands.ToString()` renders for the flags; the flags enumeration
   * is not part of this model, so its rendering is an input.
   */
  datatype DotnetWorkloadTest = DotnetWorkloadTest(
    scenarioName: string,
    targetRid: string,
    commands: set<SdkTemplate.Action>,
    commandsText: string)

  /** The one workload the scenario exercises. */
  const WasmTools: string := "wasm-tools"

  /** `projectName`: the scenario name, `_Workload_` and the flags' text. */
  function ProjectName(t: DotnetWorkloadTest): string {
    t.scenarioName + "_Workload_" + t.commandsText
  }

  function ProjectDirectory(t: DotnetWorkloadTest, testRoot: string, sep: char): string {
    Combine(testRoot, ProjectName(t), sep)
  }

  /** The commands `Execute` issues: the four workload steps, or nothing without the flag. */
  function WorkloadPlan(t: DotnetWorkloadTest, testRoot: string, sep: char): seq<Cmd> {
    var dir := ProjectDirectory(t, testRoot, sep);
    if SdkTemplate.Workload in t.commands then
      [ExecuteWorkloadInstall(dir, WasmTools),
       ExecuteWorkloadList(dir, WasmTools, true),
       ExecuteWorkloadUninstall(dir, WasmTools),
       ExecuteWorkloadList(dir, WasmTools, false)]
    else []
  }

  /**
   * `Execute`: the project directory is created whatever the flags; the
   * workload commands follow only under the Workload flag.
   */
  method Execute(t: DotnetWorkloadTest, testRoot: string, sep: char)
    returns (createdDirectory: string, trace: seq<Cmd>)
    ensures createdDirectory == Combine(testRoot, t.scenarioName + "_Workload_" + t.commandsText, sep)
    ensures trace == WorkloadPlan(t, testRoot, sep)
  {
    var projectName := t.scenarioName + "_Workload_" + t.commandsText;
    var projectDirectory := Combine(testRoot, projectName, sep);
    createdDirectory := projectDirectory;
    trace := [];
    if SdkTemplate.Workload in t.commands {
      trace := trace + [ExecuteWorkloadInstall(projectDirectory, WasmTools)];
      trace := trace + [ExecuteWorkloadList(projectDirectory, WasmTools, true)];
      trace := trace + [ExecuteWorkloadUninstall(projectDirectory, WasmTools)];
      trace := trace + [ExecuteWorkloadList(projectDirectory, WasmTools, false)];
    }
  }

  /**
   * The project directory lies under the test root and its last segment is
   * the project name, when the name holds no separator.
   */
  lemma ProjectDirectoryShape(t: DotnetWorkloadTest, testRoot: string, sep: char)
    ensures var dir := ProjectDirectory(t, testRoot, sep);
      && StartsWith(dir, testRoot)
      && EndsWith(dir, t.scenarioName + "_Workload_" + t.commandsText)
      && (testRoot != "" && sep !in ProjectName(t) ==> LastSegment(dir, sep) == ProjectName(t))
  {
    CombineEndsWithName(testRoot, ProjectName(t), sep);
  }

  /**
   * Without the flag nothing is issued; with it, exactly four commands, all
   * for `wasm-tools` in the project directory: install, list, uninstall, list.
   */
  lemma WorkloadPlanShape(t: DotnetWorkloadTest, testRoot: string, sep: char)
    ensures var plan := WorkloadPlan(t, testRoot, sep);
      && (SdkTemplate.Workload !in t.commands <==> plan == [])
      && (SdkTemplate.Workload in t.commands ==>
            && |plan| == 4
            && plan[0].ExecuteWorkloadInstall? && plan[1].ExecuteWorkloadList?
            && plan[2].ExecuteWorkloadUninstall? && plan[3].ExecuteWorkloadList?
            && plan[1].expectInstalled && !plan[3].expectInstalled)
      && forall k :: 0 <= k < |plan| ==>
           && plan[k].workload == WasmTools
           && plan[k].directory == ProjectDirectory(t, testRoot, sep)
           && SdkTemplate.StageOf(plan[k]) == SdkTemplate.WorkloadStage
  {
  }

  /**
   * The installed-workload state as the commands change it. A list whose
   * expectation disagrees with the state fails the scenario (`None`);
   * commands that do not concern workloads leave the state alone. This is
   * one step of the replay; `FourStepReplay` and `WorkloadExpectationsHold`
   * state what the scenario's four commands do together.
   */
  function Apply(installed: set<string>, cmd: Cmd): (r: Option<set<string>>)
    ensures cmd.ExecuteWorkloadList? ==> (r.Some? <==> ((cmd.workload in installed) == cmd.expectInstalled))
    ensures r.Some? && cmd.ExecuteWorkloadInstall? ==> r.value == installed + {cmd.workload}
    ensures r.Some? && cmd.ExecuteWorkloadUninstall? ==> r.value == installed - {cmd.workload}
  {
    match cmd
    case ExecuteWorkloadInstall(_, w) => Some(installed + {w})
    case ExecuteWorkloadUninstall(_, w) => Some(installed - {w})
    case ExecuteWorkloadList(_, w, expected) => if (w in installed) == expected then Some(installed) else None
    case _ => Some(installed)
  }

  /** Runs `trace` from `installed`; `None` if some list expectation fails. */
  function Replay(installed: set<string>, trace: seq<Cmd>): Option<set<string>>
    decreases |trace|
  {
    if |trace| == 0 then Some(installed)
    else match Apply(installed, trace[0])
      case None => None
      case Some(next) => Replay(next, trace[1..])
  }

  /** One step of `Replay`: a command that applies hands the rest of the trace its new state. */
  lemma ReplayStep(installed: set<string>, trace: seq<Cmd>, next: set<string>)
    requires |trace| > 0 && Apply(installed, trace[0]) == Some(next)
    ensures Replay(installed, trace) == Replay(next, trace[1..])
  {
  }

  /**
   * Whatever workloads are installed beforehand, every list expectation of
   * the scenario holds, and afterwards `wasm-tools` is absent and every other
   * workload is as it was.
   */
  lemma WorkloadExpectationsHold(t: DotnetWorkloadTest, testRoot: string, sep: char, installed: set<string>)
    ensures Replay(installed, WorkloadPlan(t, testRoot, sep)).Some?
    ensures Replay(installed, WorkloadPlan(t, testRoot, sep)).value ==
      if SdkTemplate.Workload in t.commands then installed - {WasmTools} else installed
  {
    if SdkTemplate.Workload in t.commands {
      var dir := ProjectDirectory(t, testRoot, sep);
      FourStepReplay(dir, installed, true, false);
    }
  }

  /**
   * The four-step sequence with list expectations `first` and `second`
   * succeeds from any starting state exactly when the first list expects
   * `wasm-tools` present and the second absent, the states the preceding
   * install and uninstall produce; it then ends without `wasm-tools`.
   */
  lemma FourStepReplay(dir: string, installed: set<string>, first: bool, second: bool)
    ensures var r := Replay(installed, [ExecuteWorkloadInstall(dir, WasmTools), ExecuteWorkloadList(dir, WasmTools, first),
                                        ExecuteWorkloadUninstall(dir, WasmTools), ExecuteWorkloadList(dir, WasmTools, second)]);
      && (r.Some? <==> first && !second)
      && (r.Some? ==> r.value == installed - {WasmTools})
  {
    var trace := [ExecuteWorkloadInstall(dir, WasmTools), ExecuteWorkloadList(dir, WasmTools, first),
                  ExecuteWorkloadUninstall(dir, WasmTools), ExecuteWorkloadList(dir, WasmTools, second)];
    var s1 := installed + {WasmTools};
    var s3 := s1 - {WasmTools};
    assert s3 == installed - {WasmTools};
    var t1 := trace[1..];
    var t2 := t1[1..];
    var t3 := t2[1..];
    assert t1[0] == ExecuteWorkloadList(dir, WasmTools, first);
    assert t2[0] == ExecuteWorkloadUninstall(dir, WasmTools);
    assert t3 == [ExecuteWorkloadList(dir, WasmTools, second)];
    ReplayStep(installed, trace, s1);
    if first {
      ReplayStep(s1, t1, s1);
      ReplayStep(s1, t2, s3);
      if !second {
        ReplayStep(s3, t3, s3);
        assert t3[1..] == [];
      }
    }
  }
}
