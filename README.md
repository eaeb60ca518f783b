# A Dafny model of the dotnet scenario tests

The dotnet scenario tests check a .NET SDK build end to end. They create projects from templates, build, run, publish and test them. They install and remove workloads. They also run single-file ("file-based") C# programs under a controlled environment. This project models the sequential logic of that test suite and of the sample programs it runs, and proves properties of the model:

- **Template scenarios** (`SdkTemplate`). `SdkTemplateTest.Execute` is a method that appends one abstract `Cmd` per `DotNetSdkHelper` call to a trace. The trace is proved equal to `Plan`, a fixed-order concatenation of per-stage command lists. Lemmas about `Plan` prove:
  - the stage order;
  - what each stage issues and how many commands;
  - the workspace setup;
  - the run variant;
  - the three complex publishes;
  - the ready-to-run and AOT publishes;
  - the exact seven-command trace of the console scenario.
- **Workload scenario** (`DotnetWorkload`). `DotnetWorkloadTest.Execute` issues install, list, uninstall and list for `wasm-tools`. Replayed over a set of installed workloads, both list expectations hold from any starting state.
- **Process sandbox** (`FileBasedApps`). `FileBasedAppHelper` is a class. `ConfigureProcess` removes tooling variables from a `ProcessStartInfo`'s environment map in a loop, then writes the seven baseline variables. It may launch a nested `new globaljson`. The resulting environment is proved to be `Sandboxed(inherited)`. Lemmas state what survives, what is fixed, and that configuring twice changes nothing. `ExecuteRunFile` checks the file exists, launches `dotnet run "<path>"`, and returns standard output only after a zero exit code.
- **Package pipeline** (`PackagePipeline`). `PackageSearchApp.cs` and `PackageDemoApp.cs` share identical code, modelled once: JSON parsing with defaults, validation, conversion to XML and back, ranking and taking ten, and the display table. Proved:
  - the defaults;
  - the failure condition of validation;
  - the XML round trip of each record;
  - bounds;
  - ranking order and that the ranking is a permutation;
  - that the first result is the most downloaded;
  - the truncation bounds.

  `PackageSearchApp`, `PackageDemoApp`, `PackageDownloadApp` and `AppWithArgs` model each sample program's own `Main` and helpers:
  - the query default;
  - the chosen package;
  - the project file preview;
  - the download URL;
  - the archive listing;
  - the `<id>` extraction;
  - the echoed arguments.

Support modules:
- `Text` models the .NET string operations used: ordinal search, `Split`, `Join`, ASCII case mapping.
- `Decimal` models the invariant decimal text of integers and `long.TryParse`. Formatting then parsing gives back the number.
- `Paths` models `Path.Combine`.
- `OrdinalOrder` is ordinal string order, proved to be a total order.
- `SdkCommands` holds the command vocabulary.
- `Wrappers` holds `Option` and `Result`.

Inputs the programs get from the outside are parameters:
- template traits and enum renderings;
- the test root and directory separator;
- the set of existing files;
- the inherited environment;
- process exit codes and outputs;
- the parsed JSON document;
- the downloaded archive.

## Model

| member | source | states |
|---|---|---|
| SdkTemplate.NoHttps | src/Microsoft.DotNet.ScenarioTests.SdkTemplateTests/SdkTemplateTest.cs:11 | True exactly when `osx` occurs somewhere in the target RID. |
| SdkTemplate.TargetArchitecture | src/Microsoft.DotNet.ScenarioTests.SdkTemplateTests/SdkTemplateTest.cs:13 | Defined when the RID contains `-`. The architecture holds no `-` and is shorter than the RID; `TargetArchitectureIsSecondSegment` places it. |
| SdkTemplate.TargetArchitectureIsSecondSegment | src/Microsoft.DotNet.ScenarioTests.SdkTemplateTests/SdkTemplateTest.cs:13 | The architecture is the text right after the first `-` of the RID, up to the next `-` or the end, and contains no `-`. It is defined only when the RID contains `-`. |
| SdkTemplate.PreMadeNameIsLastSegment | src/Microsoft.DotNet.ScenarioTests.SdkTemplateTests/SdkTemplateTest.cs:40-48 | The pre-made name is a suffix of the path without a separator, preceded by a separator unless it is the whole path. The whole path is used when it has no separator. |
| SdkTemplate.PrepareWorkspace | src/Microsoft.DotNet.ScenarioTests.SdkTemplateTests/SdkTemplateTest.cs:29-52 | Sets the project directory and returns the directory created and the setup commands. Without a pre-made solution it creates `testRoot/projectName` and issues `new`; with one it copies into `testRoot/<pre-made name>` and creates nothing. |
| SdkTemplate.Execute | src/Microsoft.DotNet.ScenarioTests.SdkTemplateTests/SdkTemplateTest.cs:26-104 | The directory created (only without a pre-made solution) and a command trace equal to `Plan`: the commands of each selected stage in the fixed order. |
| SdkTemplate.SegmentStages | src/Microsoft.DotNet.ScenarioTests.SdkTemplateTests/SdkTemplateTest.cs:33-103 | Every command a stage issues is recognised, from the command alone, as belonging to that stage. |
| SdkTemplate.StageAt | src/Microsoft.DotNet.ScenarioTests.SdkTemplateTests/SdkTemplateTest.cs:33-103 | Position `k` of the fixed stage order holds the stage whose index is `k`. |
| SdkTemplate.StageAtIndex | src/Microsoft.DotNet.ScenarioTests.SdkTemplateTests/SdkTemplateTest.cs:33-103 | Each of the ten stages of `Execute` sits at its own index of the order. |
| SdkTemplate.PlanIsPlanUpTo | src/Microsoft.DotNet.ScenarioTests.SdkTemplateTests/SdkTemplateTest.cs:33-103 | The trace is the stage-by-stage left fold over all ten stages. |
| SdkTemplate.PlanUpToOrdered | src/Microsoft.DotNet.ScenarioTests.SdkTemplateTests/SdkTemplateTest.cs:33-103 | The commands of the first `k` stages never go back to an earlier stage, and all belong to the first `k` stages. |
| SdkTemplate.PlanInStageOrder | src/Microsoft.DotNet.ScenarioTests.SdkTemplateTests/SdkTemplateTest.cs:54-103 | The trace follows the fixed stage order: setup, multi-TFM, class-library reference, build, run, publish, complex publish, ready-to-run, AOT, test. It holds no workload command. |
| SdkTemplate.Only | src/Microsoft.DotNet.ScenarioTests.SdkTemplateTests/SdkTemplateTest.cs:54-103 | The commands of one stage, picked out of a trace in order, are never more than the trace. |
| SdkTemplate.OnlyAppend | src/Microsoft.DotNet.ScenarioTests.SdkTemplateTests/SdkTemplateTest.cs:54-103 | Picking one stage's commands out of a concatenation is picking them out of each part. |
| SdkTemplate.OnlyUniform | src/Microsoft.DotNet.ScenarioTests.SdkTemplateTests/SdkTemplateTest.cs:54-103 | A list that belongs entirely to one stage is all of that stage's commands and none of any other stage's. |
| SdkTemplate.OnlyPlanUpTo | src/Microsoft.DotNet.ScenarioTests.SdkTemplateTests/SdkTemplateTest.cs:54-103 | Within the first `k` stages, a stage's commands are exactly its own segment if it is among them, and nothing otherwise. |
| SdkTemplate.SegmentCount | src/Microsoft.DotNet.ScenarioTests.SdkTemplateTests/SdkTemplateTest.cs:54-103 | Each stage issues its expected number of commands: 1 for a selected stage, 3 for the complex publish, 0 when unselected. Multi-TFM issues 1 exactly when frameworks are given. |
| SdkTemplate.PlanStages | src/Microsoft.DotNet.ScenarioTests.SdkTemplateTests/SdkTemplateTest.cs:54-103 | A stage's commands in the trace are exactly the ones that stage issues, and their number is the expected count. An unselected stage issues nothing. |
| SdkTemplate.OnlyEmpty | src/Microsoft.DotNet.ScenarioTests.SdkTemplateTests/SdkTemplateTest.cs:54-103 | When a stage has no commands in a trace, no command of the trace belongs to it. |
| SdkTemplate.PlanStartsWithWorkspace | src/Microsoft.DotNet.ScenarioTests.SdkTemplateTests/SdkTemplateTest.cs:29-52 | The first command is `new` in `testRoot/{scenario}_{template}_{language}`, with `--no-https` exactly for ASP.NET Core on an `osx` RID. With a pre-made solution it is instead a copy into `testRoot/<last segment>`, and no `new` is issued at all. |
| SdkTemplate.PlanRunVariant | src/Microsoft.DotNet.ScenarioTests.SdkTemplateTests/SdkTemplateTest.cs:67-81 | With Run selected, exactly one run command: web for ASP.NET Core, else UI for UI apps, else console. |
| SdkTemplate.PlanPublishComplex | src/Microsoft.DotNet.ScenarioTests.SdkTemplateTests/SdkTemplateTest.cs:86-91 | The complex publish is exactly three publishes, in order: framework-dependent, self-contained for the RID, and self-contained for `linux-{arch}`. |
| SdkTemplate.PlanPublishR2RAndAot | src/Microsoft.DotNet.ScenarioTests.SdkTemplateTests/SdkTemplateTest.cs:92-99 | Ready-to-run is one trimmed, self-contained publish for `linux-{arch}`. AOT is one AOT publish for the RID. |
| SdkTemplate.PlanSteps | src/Microsoft.DotNet.ScenarioTests.SdkTemplateTests/SdkTemplateTest.cs:33-103 | Appending each stage's commands in turn to the setup commands gives `Plan`. |
| SdkTemplate.ConsoleScenario | src/Microsoft.DotNet.ScenarioTests.SdkTemplateTests/SdkTemplateTests.cs:30-33 | The console scenario (Build, Run, PublishComplex, PublishR2R) issues exactly seven commands: `new`, build, run, three publishes, the ready-to-run publish. |
| DotnetWorkload.Execute | src/Microsoft.DotNet.ScenarioTests.SdkTemplateTests/DotnetWorkloadTest.cs:23-37 | Creates `testRoot/{scenario}_Workload_{flags}` whatever the flags, and issues exactly the workload plan. |
| DotnetWorkload.ProjectDirectoryShape | src/Microsoft.DotNet.ScenarioTests.SdkTemplateTests/DotnetWorkloadTest.cs:25-26 | The project directory starts with the test root and ends with the project name, which is its last segment. |
| DotnetWorkload.WorkloadPlanShape | src/Microsoft.DotNet.ScenarioTests.SdkTemplateTests/DotnetWorkloadTest.cs:30-35 | With no Workload flag, nothing is issued. With it, exactly four `wasm-tools` commands in the project directory: install, list expecting present, uninstall, list expecting absent. |
| DotnetWorkload.Apply | src/Microsoft.DotNet.ScenarioTests.SdkTemplateTests/DotnetWorkloadTest.cs:32-35 | Install adds the workload and uninstall removes it. A list succeeds exactly when its expectation matches the state. |
| DotnetWorkload.ReplayStep | src/Microsoft.DotNet.ScenarioTests.SdkTemplateTests/DotnetWorkloadTest.cs:32-35 | A command that applies hands its new state to the rest of the trace. |
| DotnetWorkload.FourStepReplay | src/Microsoft.DotNet.ScenarioTests.SdkTemplateTests/DotnetWorkloadTest.cs:32-35 | The install/list/uninstall/list sequence succeeds from any state exactly when the lists expect present and then absent. It ends without `wasm-tools`. |
| DotnetWorkload.WorkloadExpectationsHold | src/Microsoft.DotNet.ScenarioTests.SdkTemplateTests/DotnetWorkloadTest.cs:30-35 | Whatever is installed beforehand, every list expectation of the scenario holds. Afterwards only `wasm-tools` has changed, and it is absent. |
| FileBasedApps.ProcessStartInfo.constructor | src/Microsoft.DotNet.ScenarioTests.FileBasedApps/FileBasedAppHelper.cs:48-53 | A new process has the executable and arguments given and inherits the environment. |
| FileBasedApps.WriteBaseline | src/Microsoft.DotNet.ScenarioTests.FileBasedApps/FileBasedAppHelper.cs:82-90 | The seven assignments leave the map overlaid with the baseline. |
| FileBasedApps.Sandboxed | src/Microsoft.DotNet.ScenarioTests.FileBasedApps/FileBasedAppHelper.cs:77-90 | Every baseline key is present, and no tooling key survives unless it is a baseline key. `SandboxedContents` gives the full map. |
| FileBasedApps.SandboxedContents | src/Microsoft.DotNet.ScenarioTests.FileBasedApps/FileBasedAppHelper.cs:77-90 | After configuration the only `DOTNET_`/`MSBUILD` keys are baseline keys. The seven baseline values are exact. Every other inherited key keeps its value, and nothing else appears. |
| FileBasedApps.BaselineKeysClassified | src/Microsoft.DotNet.ScenarioTests.FileBasedApps/FileBasedAppHelper.cs:77-90 | The four `DOTNET_` baseline keys match the strip prefixes, so they are removed and written again. The three `Import` keys do not. |
| FileBasedApps.SandboxedIdempotent | src/Microsoft.DotNet.ScenarioTests.FileBasedApps/FileBasedAppHelper.cs:72-90 | Configuring an already configured environment changes nothing. |
| FileBasedApps.ExecutablePathShape | src/Microsoft.DotNet.ScenarioTests.FileBasedApps/FileBasedAppHelper.cs:21-22 | The executable path is under the root, and its last segment is `dotnet.exe` on Windows and `dotnet` elsewhere. |
| FileBasedApps.RunArgsQuotesPath | src/Microsoft.DotNet.ScenarioTests.FileBasedApps/FileBasedAppHelper.cs:43-44 | The argument string is `run "` + the full path + `"`, and the path can be read back from it. |
| FileBasedApps.FileBasedAppHelper.constructor | src/Microsoft.DotNet.ScenarioTests.FileBasedApps/FileBasedAppHelper.cs:24-30 | Keeps the root, SDK version and platform; nothing is launched yet. |
| FileBasedApps.FileBasedAppHelper.GlobalJsonLaunches | src/Microsoft.DotNet.ScenarioTests.FileBasedApps/FileBasedAppHelper.cs:93-96 | One nested `new globaljson --sdk-version {v}` in the working directory. It happens exactly when the version is non-empty and `global.json` is absent there; otherwise nothing. |
| FileBasedApps.FileBasedAppHelper.ConfigureProcess | src/Microsoft.DotNet.ScenarioTests.FileBasedApps/FileBasedAppHelper.cs:72-97 | Sets the working directory and leaves executable and arguments alone. The environment becomes the sandboxed inherited one, and the `global.json` launch is recorded when due. |
| FileBasedApps.FileBasedAppHelper.ExecuteRunFile | src/Microsoft.DotNet.ScenarioTests.FileBasedApps/FileBasedAppHelper.cs:35-58 | A missing file gives FileNotFound and launches nothing. Otherwise the helper launches `dotnet run "<full path>"` in the sandbox, after any `global.json` seeding. Standard output is returned only for exit code 0. |
| PackagePipeline.ParsedDefaults | test/resources/FileBasedApps/PackageSearchApp.cs:129-164 | Missing properties default: Id and Version `Unknown`, Description `No description`, downloads 0, no URL, authors `[Unknown]`, no tags. A `null` author is `Unknown` and a `null` tag is `""`. Present values are kept. |
| PackagePipeline.CollectStrings | test/resources/FileBasedApps/PackageSearchApp.cs:137-164 | The array loop gives each string in order, or the fallback for `null`. |
| PackagePipeline.ParsePackageSearchJson | test/resources/FileBasedApps/PackageSearchApp.cs:114-177 | No `searchResult` gives an empty list; otherwise one parsed record per element, in order. A downloads number outside the `long` range is an error at the first such element. |
| PackagePipeline.AllHaveVersions | test/resources/FileBasedApps/PackageSearchApp.cs:184 | True exactly when every record has a non-empty version. |
| PackagePipeline.AnyHasProjectUrl | test/resources/FileBasedApps/PackageSearchApp.cs:185 | True exactly when some record has a non-empty project URL. |
| PackagePipeline.AnyHasDownloads | test/resources/FileBasedApps/PackageSearchApp.cs:186 | True exactly when some record has a positive download count. |
| PackagePipeline.ValidatePackageContent | test/resources/FileBasedApps/PackageSearchApp.cs:179-196 | Fails, with "Expected version information not found", exactly when some version is null or empty. Otherwise it reports the URL and download findings as the two `Any` tests define them. |
| PackagePipeline.ParsedValidation | test/resources/FileBasedApps/PackageSearchApp.cs:130-195 | Parsed output fails validation exactly when some `latestVersion` is present but `null` or empty. A missing version becomes `Unknown`, which passes. |
| PackagePipeline.ConvertPackagesToXml | test/resources/FileBasedApps/PackageSearchApp.cs:198-221 | One element per record, in order, with the record's Id or `Unknown`. Every element has all six child elements, so the analysis' `TotalDownloads` filter keeps each one. `XmlRoundTrip` gives the values read back. |
| PackagePipeline.RowsWithDownloads | test/resources/FileBasedApps/PackageSearchApp.cs:228-237 | Filtering on a `TotalDownloads` element never adds rows. |
| PackagePipeline.RankLeTotal | test/resources/FileBasedApps/PackageSearchApp.cs:238-239 | Any two rows are comparable under downloads-descending then Id. |
| PackagePipeline.RankLeTransitive | test/resources/FileBasedApps/PackageSearchApp.cs:238-239 | The ranking order is transitive. |
| PackagePipeline.InsertPermutes | test/resources/FileBasedApps/PackageSearchApp.cs:238-239 | Inserting a row adds exactly that row. |
| PackagePipeline.InsertRanked | test/resources/FileBasedApps/PackageSearchApp.cs:238-239 | Inserting into a ranked list keeps it ranked. |
| PackagePipeline.SortRowsCorrect | test/resources/FileBasedApps/PackageSearchApp.cs:238-239 | The ordering step's output is ranked and is a permutation of its input. |
| PackagePipeline.AuthorList | test/resources/FileBasedApps/PackageSearchApp.cs:246 | `Unknown` when there are no authors, the sole author when there is one, and otherwise a text starting with the first author. |
| PackagePipeline.AnalyzePackagesWithLinq | test/resources/FileBasedApps/PackageSearchApp.cs:223-253 | At most ten results and never more than there were elements. `AnalyzeOrdered`, `FirstIsMostDownloaded` and `ResultsFromRows` give the order and the contents. |
| PackagePipeline.AnalyzeBounds | test/resources/FileBasedApps/PackageSearchApp.cs:228-248 | At most ten results, never more than there are packages, and exactly `min(10, rows)`. |
| PackagePipeline.TopRowsAreTheBest | test/resources/FileBasedApps/PackageSearchApp.cs:238-240 | The rows kept are ranked and come from the input. Each ranks at or above every row that was cut. |
| PackagePipeline.RankedCut | test/resources/FileBasedApps/PackageSearchApp.cs:240 | Cutting a ranked list leaves a ranked front that ranks above the back; together the two are the list. |
| PackagePipeline.AnalyzeOrdered | test/resources/FileBasedApps/PackageSearchApp.cs:238-239 | Results are in non-increasing downloads, and equal counts are in ascending ordinal order of Id. |
| PackagePipeline.FirstIsMostDownloaded | test/resources/FileBasedApps/PackageSearchApp.cs:238-240 | When any row is analysed, the first result has at least as many downloads as every row. |
| PackagePipeline.XmlRoundTrip | test/resources/FileBasedApps/PackageSearchApp.cs:205-236 | Written to XML and read back, each record gives its own Id, Version, downloads `TotalDownloads ?? 0`, URL `ProjectUrl ?? ""` (never `Not specified`) and authors, in order. |
| PackagePipeline.ParsedDownloadsAreLong | test/resources/FileBasedApps/PackageSearchApp.cs:132 | Parsed download counts fit a `long`. |
| PackagePipeline.Truncate | test/resources/FileBasedApps/PackageSearchApp.cs:268-269 | A value over the limit becomes its first `keep` characters followed by `...`; a shorter one is unchanged. Either way the result is within the limit. |
| PackagePipeline.MaxDownloads | test/resources/FileBasedApps/PackageSearchApp.cs:281 | The largest download count: an upper bound that some result attains. |
| PackagePipeline.MinDownloads | test/resources/FileBasedApps/PackageSearchApp.cs:282 | The smallest download count: a lower bound that some result attains. |
| PackagePipeline.DisplayFormattedResults | test/resources/FileBasedApps/PackageSearchApp.cs:255-288 | One row per result, in order, with authors at most 23 characters and URLs at most 28. The summary (count, total, maximum, minimum) is printed exactly when there are results. |
| PackagePipeline.FirstOutOfRange | test/resources/FileBasedApps/PackageSearchApp.cs:125-132 | The first element whose download count does not fit a `long`, or the length if there is none. |
| PackagePipeline.ResultsFromRows | test/resources/FileBasedApps/PackageSearchApp.cs:228-248 | Every result summarises one of the rows analysed. |
| PackagePipeline.AnalyzeConverted | test/resources/FileBasedApps/PackageSearchApp.cs:198-253 | For converted packages the results number between 1 and 10, are led by the most downloaded package, and each reports one of the packages. |
| PackagePipeline.CompletedOutcome | test/resources/FileBasedApps/PackageSearchApp.cs:34-63 | A completed run has validated, non-empty packages and 1 to 10 results, led by the most downloaded package, each reporting a parsed package. |
| PackagePipeline.SearchAndAnalyze | test/resources/FileBasedApps/PackageSearchApp.cs:34-63 | Steps 1-6 of `Main` give the modelled outcome. A failed search, empty output, bad JSON, out-of-range count, no packages or missing versions each stop the run; otherwise the table is printed. |
| PackagePipeline.SearchArgumentsShape | test/resources/FileBasedApps/PackageSearchApp.cs:82 | The search arguments are `package search `, the query, then ` --format json --verbosity detailed --take 10`. |
| PackageSearchApp.RunSearch | test/resources/FileBasedApps/PackageSearchApp.cs:24-73 | The query is the first argument, or `Microsoft.Extensions` without one. The pipeline then runs on it. |
| PackageDemoApp.RunDemo | test/resources/FileBasedApps/PackageDemoApp.cs:24-80 | The search asks for `Microsoft.Extensions` with the shared search arguments. A package is chosen exactly when the run completes: the first result's Id and Version. Its downloads are at least every package's. |
| PackageDemoApp.AddedMessage | test/resources/FileBasedApps/PackageDemoApp.cs:332-339 | The success message is printed exactly when the project text contains the Id; otherwise the warning. |
| PackageDemoApp.Preview | test/resources/FileBasedApps/PackageDemoApp.cs:343-351 | At most eleven lines, every one indented by two spaces. There are eleven exactly when the file has more than ten lines. |
| PackageDemoApp.PreviewShape | test/resources/FileBasedApps/PackageDemoApp.cs:343-351 | The preview is `min(10, lines)` indented lines in order, plus `  ...` exactly when there are more than ten. |
| PackageDemoApp.PrintPreview | test/resources/FileBasedApps/PackageDemoApp.cs:343-351 | The loop prints the preview of the project file split on `\n`. |
| PackageDemoApp.CreateProjectWithMostDownloadedPackage | test/resources/FileBasedApps/PackageDemoApp.cs:297-378 | Issues `new console`, `add package {id}` and `build` in order, stopping at the first failure. The project-file check follows `add package`. Success means all three commands succeeded. |
| PackageDemoApp.ProjectCommandsOrder | test/resources/FileBasedApps/PackageDemoApp.cs:313-360 | The commands start with `new console`; `add package` names the Id; `build` is issued exactly when the first two succeed. |
| PackageDownloadApp.DownloadUrl | test/resources/FileBasedApps/PackageDownloadApp.cs:24 | The URL starts with the flat-container address and ends with `.nupkg`. |
| PackageDownloadApp.ToLowerIdempotent | test/resources/FileBasedApps/PackageDownloadApp.cs:24 | Lower-casing an Id twice is lower-casing it once. |
| PackageDownloadApp.DownloadUrlIgnoresCase | test/resources/FileBasedApps/PackageDownloadApp.cs:24 | Ids that differ only in letter case give the same download URL, which is the URL of the lower-cased Id. |
| PackageDownloadApp.DownloadUrlShape | test/resources/FileBasedApps/PackageDownloadApp.cs:24 | The URL starts with the flat-container address, continues with `{lower(id)}/{version}/`, and ends with the file name `{lower(id)}.{version}.nupkg`. |
| PackageDownloadApp.ListingShape | test/resources/FileBasedApps/PackageDownloadApp.cs:41-54 | At most ten entry lines, in entry order. A trailer `  ... and {n-10} more files` follows exactly when there are more than ten entries. |
| PackageDownloadApp.ListEntries | test/resources/FileBasedApps/PackageDownloadApp.cs:41-54 | The counter ends at the entry count, and the lines printed are the listing. |
| PackageDownloadApp.FirstNuspec | test/resources/FileBasedApps/PackageDownloadApp.cs:57 | The first entry whose name ends with `.nuspec`, or none when no entry does. |
| PackageDownloadApp.IdFromNuspec | test/resources/FileBasedApps/PackageDownloadApp.cs:68-76 | An extracted Id is non-empty, and the content holds `<id>` + Id + `</id>`. |
| PackageDownloadApp.NoOpenTag | test/resources/FileBasedApps/PackageDownloadApp.cs:68 | Without `<id>`, no Id is extracted. |
| PackageDownloadApp.IdBetweenTags | test/resources/FileBasedApps/PackageDownloadApp.cs:68-76 | With the first `<id>` at `i`, an Id is extracted exactly when a `</id>` follows, none starting right at `i+4`. It is then the non-empty text from `i+4` to the first `</id>` after it, and contains no `</id>`. |
| PackageDownloadApp.ExtractId | test/resources/FileBasedApps/PackageDownloadApp.cs:68-76 | The index-by-index extraction gives the Id between the tags. |
| PackageDownloadApp.InspectNuspec | test/resources/FileBasedApps/PackageDownloadApp.cs:57-78 | Prints the nuspec entry's name and, when it can be extracted, the Id from it. |
| PackageDownloadApp.Inspect | test/resources/FileBasedApps/PackageDownloadApp.cs:10-101 | Prints the URL of the demo package. An HTTP failure prints `HTTP Error: {message}`. Another download failure prints `Error: {message}`. Bytes that cannot be saved or opened as an archive print the size line, then `Error: {message}`. Otherwise it prints the size, entry count, listing, nuspec lines and completion line. The closing line is printed in every case. |
| AppWithArgs.Run | test/resources/FileBasedApps/AppWithArgs.cs:5-19 | The banner, then `Received {n} arguments:`, then `  arg[{i}]: {args[i]}` for each argument in order. `No arguments provided` appears exactly when there are none. There are `2 + n` lines, plus one when `n = 0`. |
| Text.IndexOf | test/resources/FileBasedApps/PackageDownloadApp.cs:70-71 | The first index at or after `from` where the value occurs, or -1 when it occurs nowhere there. |
| Text.Contains | test/resources/FileBasedApps/PackageDemoApp.cs:332 | True exactly when the value occurs somewhere. |
| Text.JoinSplit | test/resources/FileBasedApps/PackageDemoApp.cs:344 | Joining the pieces of a split with the separator gives back the string. |
| Text.SplitPieces | test/resources/FileBasedApps/PackageDemoApp.cs:344 | No piece of a split holds the separator. There is one piece exactly when the separator is absent. |
| Text.LastSegmentShape | src/Microsoft.DotNet.ScenarioTests.SdkTemplateTests/SdkTemplateTest.cs:43 | The last piece of a split is a suffix of the string, preceded by the separator unless it is the whole string. |
| Text.ToLower | test/resources/FileBasedApps/PackageDownloadApp.cs:24 | Same length, ASCII letters lower-cased, every other character kept; no upper-case letter remains. |
| Decimal.FormatThenParse | test/resources/FileBasedApps/PackageSearchApp.cs:209-234 | Parsing the decimal text of any `long` gives back the number. |
| Paths.CombineEndsWithName | src/Microsoft.DotNet.ScenarioTests.SdkTemplateTests/SdkTemplateTest.cs:31 | A combined path starts with the directory and ends with the name. An empty directory gives the name, and an empty name gives the directory. A non-empty name without separators is the last segment when the directory is not empty. |

## Left out

- `DotNetSdkHelper`, the `DotNetSdkActions` enumeration and the template extension methods are not part of this model. They are modelled as follows:
  - Each helper call is one `Cmd`.
  - The flags are a set of `Action`.
  - `IsAspNetCore`, `isUIApp`, `GetName`, `ToCliName` and `Commands.ToString()` are inputs (`TemplateTraits`, `Language`, `commandsText`).
- `DotnetWorkloadTest`'s `NoHttps` and `TargetArchitecture` (DotnetWorkloadTest.cs:11-13) are the same expressions as `SdkTemplateTest`'s. They are modelled once, by `SdkTemplate.NoHttps` and `SdkTemplate.TargetArchitecture`.
- Directory creation, copying and the contents of the copied solution are not modelled; the directory created is returned instead. `AppContext.BaseDirectory` is an input.
- `ExecuteHelper.ExecuteProcess` and `ValidateExitCode` are not part of this model. A launch is a recorded `Invocation`, and validation is modelled as exit code 0 passing. The timeout and the output helper's log lines are left out.
- SdkTemplate.Execute: when `PublishComplex` or `PublishR2R` is selected and the target RID holds no `-`, `TargetRid.Split('-')[1]` (SdkTemplateTest.cs:13) throws `IndexOutOfRangeException`. Under `PublishComplex` this happens after the commands up to and including the two publishes at SdkTemplateTest.cs:88-89, at line 90; under `PublishR2R` alone it happens at line 94. The model requires `ArchitectureDefined`, so it does not cover that partial trace or the exception.
- FileBasedApps.FileBasedAppHelper.ConfigureProcess: the nested `new globaljson` launch goes through `ExecuteCmd`, which configures its own process again. It is recorded as one `Invocation`, and that second configuration is not followed. The nested call reconfigures its process before that process starts, so the `global.json` guard holds again. Nothing in the code shown ends that recursion; only `ExecuteHelper.ExecuteProcess`, which is not part of this model, could.
- FileBasedApps.SandboxedContents: environment keys are compared exactly. On Windows the process environment compares keys without case, which is not modelled. The prefix test itself ignores ASCII case only.
- `Path.GetFullPath` is an input (`absolutePath`). `File.Exists` is membership in a set of existing paths. `Path.Combine` is modelled for a relative second argument only.
- Paths.CombineEndsWithName: on Windows `Path.Combine` also takes `/` as a separator at the end of the directory, and it returns a rooted second argument (`\\x`, `/x`, `C:x`) unchanged. The model only recognises the platform's own separator and treats the second argument as relative.
- Text.ToLower: `ToLowerInvariant` and the `OrdinalIgnoreCase` comparisons fold ASCII letters only, not full Unicode.
- PackagePipeline.AnalyzeOrdered: `ThenBy(p => p.Id)` uses the current culture's string comparison; the model orders Ids ordinally. The same goes for `IndexOf(string)` and `EndsWith(string)` in the download app, which compare by the current culture. `string.Contains(string)` is ordinal, as modelled.
- PackagePipeline.SortRowsCorrect: the model's sort is stable, like LINQ's, but the contract does not state stability.
- `JsonDocument` and `XDocument` are abstracted to records with optional fields. The model does not cover copying a JSON property of the wrong type, fractional numbers or XML escaping. A `totalDownloads` outside the `long` range is modelled as the exception it raises.
- `long.TryParse` is modelled for plain decimal text; leading and trailing white space and culture-specific signs are not.
- The average in the summary is floating point and is not modelled. `Sum` is modelled over unbounded integers; its overflow exception is not. `:N0` number formatting and column padding are not modelled; display rows hold the values before padding.
- HTTP download, zip reading, temporary files and directories, `Guid` names, clean-up, console write order beyond the modelled line lists, and exception messages and stack traces are input/output. The download is an input (`Download`), and the project commands' exit codes and project file are an input (`ProjectEnvironment`).
- `PackageDownloadApp`'s `Downloaded package size` is the input's size, not the archive's real length.
- PackageDownloadApp.Inspect: an exception raised after the archive opens is not modelled. This covers reading the nuspec entry, for example. In the source it prints `Error: {message}` after the lines already written.
- .NET strings are sequences of UTF-16 code units, and `Length`, `Substring` and `IndexOf` count those. A Dafny `char` is a whole Unicode scalar value. So for text outside the Basic Multilingual Plane, `Truncate` cuts at a different place, and the `<id>` indices differ from the source's. The extracted text is the same.
- The xUnit test classes, `LocalizedTemplateTests` and `DotNetSdkTemplate.cs` are not modelled, beyond the template names as a datatype and the console scenario's flags.
