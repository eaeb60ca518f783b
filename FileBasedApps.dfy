/**
 * `FileBasedAppHelper`: runs a C# file with `dotnet run` in a sandboxed
 * environment. Every process it launches first has its inherited DOTNET_ and
 * MSBUILD variables removed and a fixed baseline written; when an SDK version
 * is pinned and the working directory has no `global.json`, a nested
 * `new globaljson` command is issued first.
 */
module FileBasedApps {
  import opened Wrappers
  import opened Text
  import opened Paths

  /** A process as it is started: executable, argument string, directory and environment. */
  datatype Invocation = Invocation(fileName: string, arguments: string, workingDirectory: string,
                                   environment: map<string, string>)

  /** Why `ExecuteRunFile` throws. */
  datatype RunError =
    | FileNotFound(path: string)
    | ExitCodeMismatch(expected: int, actual: int)

  /** What the launched process reports once it exits. */
  datatype ProcessOutcome = ProcessOutcome(exitCode: int, stdOut: string)

  /** The parts of `Process.StartInfo` the helper sets. */
  class ProcessStartInfo {
    var fileName: string
    var arguments: string
    var workingDirectory: string
    var environment: map<string, string>

    /** A new process inherits the environment of the one that starts it. */
    constructor (fileName: string, arguments: string, inherited: map<string, string>)
      ensures this.fileName == fileName && this.arguments == arguments
      ensures workingDirectory == "" && environment == inherited
    {
      this.fileName := fileName;
      this.arguments := arguments;
      workingDirectory := "";
      environment := inherited;
    }
  }

  /** A key the sandbox removes: it starts with `DOTNET_` or `MSBUILD`, ignoring case. */
  predicate IsToolingKey(key: string) {
    StartsWithIgnoreCase(key, "DOTNET_") || StartsWithIgnoreCase(key, "MSBUILD")
  }

  /** The seven variables every launched process gets. */
  function Baseline(dotNetRoot: string): map<string, string> {
    map[
      "DOTNET_CLI_TELEMETRY_OPTOUT" := "1",
      "DOTNET_SKIP_FIRST_TIME_EXPERIENCE" := "1",
      "DOTNET_ROOT" := dotNetRoot,
      "DOTNET_ROLL_FORWARD" := "Major",
      "ImportDirectoryBuildProps" := "false",
      "ImportDirectoryBuildTargets" := "false",
      "ImportDirectoryPackagesProps" := "false"]
  }

  /** The inherited environment without its tooling keys. */
  function Stripped(env: map<string, string>): map<string, string> {
    map k | k in env && !IsToolingKey(k) :: env[k]
  }

  /** Writing the seven variables one after another is the same as laying the baseline over `m`. */
  lemma WriteBaseline(m: map<string, string>, dotNetRoot: string)
    ensures m["DOTNET_CLI_TELEMETRY_OPTOUT" := "1"]["DOTNET_SKIP_FIRST_TIME_EXPERIENCE" := "1"]
             ["DOTNET_ROOT" := dotNetRoot]["DOTNET_ROLL_FORWARD" := "Major"]
             ["ImportDirectoryBuildProps" := "false"]["ImportDirectoryBuildTargets" := "false"]
             ["ImportDirectoryPackagesProps" := "false"] == m + Baseline(dotNetRoot)
  {
    var w := m["DOTNET_CLI_TELEMETRY_OPTOUT" := "1"]["DOTNET_SKIP_FIRST_TIME_EXPERIENCE" := "1"]
             ["DOTNET_ROOT" := dotNetRoot]["DOTNET_ROLL_FORWARD" := "Major"]
             ["ImportDirectoryBuildProps" := "false"]["ImportDirectoryBuildTargets" := "false"]
             ["ImportDirectoryPackagesProps" := "false"];
    var u := m + Baseline(dotNetRoot);
    assert w.Keys == m.Keys + Baseline(dotNetRoot).Keys;
    forall k | k in w ensures w[k] == u[k] {
    }
  }

  /** The environment `ConfigureProcess` leaves: stripped, then the baseline written over it. */
  function Sandboxed(env: map<string, string>, dotNetRoot: string): (r: map<string, string>)
    ensures Baseline(dotNetRoot).Keys <= r.Keys
    ensures forall k :: k in r && IsToolingKey(k) ==> k in Baseline(dotNetRoot)
  {
    Stripped(env) + Baseline(dotNetRoot)
  }

  /**
   * After configuration the only tooling keys are baseline keys, the baseline
   * is present with its exact values, and every other inherited key keeps its
   * value; no other key appears.
   */
  lemma SandboxedContents(env: map<string, string>, dotNetRoot: string)
    ensures var r := Sandboxed(env, dotNetRoot);
      && (forall k :: k in r && IsToolingKey(k) ==> k in Baseline(dotNetRoot))
      && r["DOTNET_CLI_TELEMETRY_OPTOUT"] == "1"
      && r["DOTNET_SKIP_FIRST_TIME_EXPERIENCE"] == "1"
      && r["DOTNET_ROOT"] == dotNetRoot
      && r["DOTNET_ROLL_FORWARD"] == "Major"
      && r["ImportDirectoryBuildProps"] == "false"
      && r["ImportDirectoryBuildTargets"] == "false"
      && r["ImportDirectoryPackagesProps"] == "false"
      && (forall k :: k in env && !IsToolingKey(k) && k !in Baseline(dotNetRoot) ==> k in r && r[k] == env[k])
      && (forall k :: k in r <==> (k in env && !IsToolingKey(k)) || k in Baseline(dotNetRoot))
  {
  }

  /**
   * The four DOTNET_ baseline variables are themselves tooling keys, removed
   * and written again; the three Import ones are not.
   */
  lemma BaselineKeysClassified(dotNetRoot: string)
    ensures IsToolingKey("DOTNET_CLI_TELEMETRY_OPTOUT") && IsToolingKey("DOTNET_SKIP_FIRST_TIME_EXPERIENCE")
    ensures IsToolingKey("DOTNET_ROOT") && IsToolingKey("DOTNET_ROLL_FORWARD")
    ensures !IsToolingKey("ImportDirectoryBuildProps") && !IsToolingKey("ImportDirectoryBuildTargets")
    ensures !IsToolingKey("ImportDirectoryPackagesProps")
  {
    StartsWithIgnoreCaseExact("DOTNET_CLI_TELEMETRY_OPTOUT", "DOTNET_");
    StartsWithIgnoreCaseExact("DOTNET_SKIP_FIRST_TIME_EXPERIENCE", "DOTNET_");
    StartsWithIgnoreCaseExact("DOTNET_ROOT", "DOTNET_");
    StartsWithIgnoreCaseExact("DOTNET_ROLL_FORWARD", "DOTNET_");
    ImportKeyNotTooling("ImportDirectoryBuildProps");
    ImportKeyNotTooling("ImportDirectoryBuildTargets");
    ImportKeyNotTooling("ImportDirectoryPackagesProps");
  }

  /** A key starting with `I` is not a tooling key. */
  lemma ImportKeyNotTooling(key: string)
    requires |key| > 0 && key[0] == 'I'
    ensures !IsToolingKey(key)
  {
    NotStartsWithIgnoreCaseHead(key, "DOTNET_");
    NotStartsWithIgnoreCaseHead(key, "MSBUILD");
  }

  /** Configuring an already configured environment changes nothing. */
  lemma SandboxedIdempotent(env: map<string, string>, dotNetRoot: string)
    ensures Sandboxed(Sandboxed(env, dotNetRoot), dotNetRoot) == Sandboxed(env, dotNetRoot)
  {
    var once := Sandboxed(env, dotNetRoot);
    var twice := Sandboxed(once, dotNetRoot);
    forall k | k in twice ensures k in once && twice[k] == once[k] {
    }
    forall k | k in once ensures k in twice {
      if k !in Baseline(dotNetRoot) {
        assert k in env && !IsToolingKey(k);
      }
    }
  }

  /** The file name of the `dotnet` executable on a platform. */
  function ExecutableName(platform: Platform): string {
    if platform.Windows? then "dotnet.exe" else "dotnet"
  }

  /** `DotNetExecutablePath`: the executable under the installation root. */
  function ExecutablePath(dotNetRoot: string, platform: Platform): string {
    Combine(dotNetRoot, ExecutableName(platform), DirectorySeparator(platform))
  }

  /**
   * The executable lies under the root and is the path's last segment:
   * `dotnet.exe` on Windows, `dotnet` elsewhere.
   */
  lemma ExecutablePathShape(dotNetRoot: string, platform: Platform)
    ensures var r := ExecutablePath(dotNetRoot, platform);
      && StartsWith(r, dotNetRoot)
      && EndsWith(r, if platform.Windows? then "dotnet.exe" else "dotnet")
      && (dotNetRoot != "" ==> LastSegment(r, DirectorySeparator(platform)) == ExecutableName(platform))
  {
    CombineEndsWithName(dotNetRoot, ExecutableName(platform), DirectorySeparator(platform));
  }

  /** The `dotnet run` argument string for a file: the path in double quotes. */
  function RunArgs(absolutePath: string): string {
    "run \"" + absolutePath + "\""
  }

  /** The quoted path can be read back from the argument string. */
  lemma RunArgsQuotesPath(absolutePath: string)
    ensures var a := RunArgs(absolutePath);
      && StartsWith(a, "run \"") && EndsWith(a, "\"")
      && |a| == |absolutePath| + 6
      && a[5..|a| - 1] == absolutePath
  {
  }

  /** The pinned SDK version when it is set and not empty (`!string.IsNullOrEmpty`). */
  predicate PinsSdk(sdkVersion: Option<string>) {
    sdkVersion.Some? && sdkVersion.value != ""
  }

  /** The arguments of the nested command that writes `global.json`. */
  function GlobalJsonArgs(version: string): string {
    "new globaljson --sdk-version " + version
  }

  class FileBasedAppHelper {
    const dotNetRoot: string
    const sdkVersion: Option<string>
    const platform: Platform
    /** The processes launched so far, in launch order. */
    var issued: seq<Invocation>

    constructor (dotNetRoot: string, sdkVersion: Option<string>, platform: Platform)
      ensures this.dotNetRoot == dotNetRoot && this.sdkVersion == sdkVersion && this.platform == platform
      ensures issued == []
    {
      this.dotNetRoot := dotNetRoot;
      this.sdkVersion := sdkVersion;
      this.platform := platform;
      issued := [];
    }

    function DotNetExecutablePath(): string {
      ExecutablePath(dotNetRoot, platform)
    }

    /**
     * The nested `new globaljson` launch `ConfigureProcess` makes in
     * `workingDirectory`, given the files that exist: one exactly when the
     * SDK version is pinned and `global.json` is missing there.
     */
    function GlobalJsonLaunches(workingDirectory: string, files: set<string>, inherited: map<string, string>)
      : (r: seq<Invocation>)
      ensures |r| <= 1
      ensures |r| == 1 <==> PinsSdk(sdkVersion) && Combine(workingDirectory, "global.json", DirectorySeparator(platform)) !in files
      ensures |r| == 1 ==> r[0].arguments == GlobalJsonArgs(sdkVersion.value) && r[0].workingDirectory == workingDirectory
    {
      if PinsSdk(sdkVersion) && Combine(workingDirectory, "global.json", DirectorySeparator(platform)) !in files then
        [Invocation(DotNetExecutablePath(), GlobalJsonArgs(sdkVersion.value), workingDirectory,
                    Sandboxed(inherited, dotNetRoot))]
      else []
    }

    /**
     * `ConfigureProcess`: sets the working directory, removes the tooling
     * keys one by one, writes the baseline, and seeds `global.json` when
     * needed. The nested launch is recorded once; its own configuration is
     * not followed.
     */
    method ConfigureProcess(process: ProcessStartInfo, workingDirectory: string, files: set<string>)
      modifies process, this
      ensures process.fileName == old(process.fileName) && process.arguments == old(process.arguments)
      ensures process.workingDirectory == workingDirectory
      ensures process.environment == Sandboxed(old(process.environment), dotNetRoot)
      ensures issued == old(issued) + GlobalJsonLaunches(workingDirectory, files, old(process.environment))
    {
      process.workingDirectory := workingDirectory;

      var inherited := process.environment;
      var toRemove := set key | key in process.environment && IsToolingKey(key);
      while toRemove != {}
        invariant toRemove <= inherited.Keys
        invariant forall k :: k in toRemove ==> IsToolingKey(k)
        invariant process.environment == map k | k in inherited && (!IsToolingKey(k) || k in toRemove) :: inherited[k]
        invariant process.workingDirectory == workingDirectory
        invariant process.fileName == old(process.fileName) && process.arguments == old(process.arguments)
        invariant issued == old(issued)
        decreases toRemove
      {
        var key :| key in toRemove;
        process.environment := process.environment - {key};
        toRemove := toRemove - {key};
      }
      assert process.environment == Stripped(inherited);
      WriteBaseline(process.environment, dotNetRoot);

      process.environment := process.environment["DOTNET_CLI_TELEMETRY_OPTOUT" := "1"];
      process.environment := process.environment["DOTNET_SKIP_FIRST_TIME_EXPERIENCE" := "1"];
      process.environment := process.environment["DOTNET_ROOT" := dotNetRoot];
      process.environment := process.environment["DOTNET_ROLL_FORWARD" := "Major"];

      process.environment := process.environment["ImportDirectoryBuildProps" := "false"];
      process.environment := process.environment["ImportDirectoryBuildTargets" := "false"];
      process.environment := process.environment["ImportDirectoryPackagesProps" := "false"];

      if PinsSdk(sdkVersion) && Combine(workingDirectory, "global.json", DirectorySeparator(platform)) !in files {
        issued := issued + [Invocation(DotNetExecutablePath(), "new globaljson --sdk-version " + sdkVersion.value,
                                       workingDirectory, Sandboxed(inherited, dotNetRoot))];
      }
    }

    /**
     * `ExecuteRunFile`: a missing file throws before anything is launched;
     * otherwise `dotnet run "<absolutePath>"` is launched in the sandbox
     * (after the `global.json` seeding, if any), and its standard output is
     * returned only when the exit code is 0. `absolutePath` is what
     * `Path.GetFullPath` gives for `csFilePath`, and `inherited` the
     * environment a new process starts with.
     */
    method ExecuteRunFile(csFilePath: string, workingDirectory: string, absolutePath: string, files: set<string>,
                          inherited: map<string, string>, outcome: ProcessOutcome)
      returns (r: Result<string, RunError>)
      modifies this
      ensures csFilePath !in files ==> r == Err(FileNotFound(csFilePath)) && issued == old(issued)
      ensures csFilePath in files ==>
        issued == old(issued) + GlobalJsonLaunches(workingDirectory, files, inherited)
                  + [Invocation(DotNetExecutablePath(), RunArgs(absolutePath), workingDirectory,
                                Sandboxed(inherited, dotNetRoot))]
      ensures csFilePath in files ==>
        r == if outcome.exitCode == 0 then Ok(outcome.stdOut) else Err(ExitCodeMismatch(0, outcome.exitCode))
    {
      if csFilePath !in files {
        return Err(FileNotFound(csFilePath));
      }
      var args := "run \"" + absolutePath + "\"";
      var process := new ProcessStartInfo(DotNetExecutablePath(), args, inherited);
      ConfigureProcess(process, workingDirectory, files);
      issued := issued + [Invocation(process.fileName, process.arguments, process.workingDirectory, process.environment)];
      if outcome.exitCode != 0 {
        return Err(ExitCodeMismatch(0, outcome.exitCode));
      }
      r := Ok(outcome.stdOut);
    }
  }
}
