/**
 * The calls the scenario classes make on `DotNetSdkHelper`. The helper itself
 * is not part of this model: each call is recorded as one command value, with
 * the arguments the caller passes, in the order they are passed.
 */
module SdkCommands {
  import opened Wrappers

  /**
   * `DotNetLanguage`, seen through the two things the scenarios use:
   * its enum name (`Language.ToString()`) and its CLI name (`ToCliName()`).
   */
  datatype Language = Language(name: string, cliName: string)

  /**
   * The optional arguments of `ExecutePublish`; `None` is an argument the
   * caller leaves at the helper's default.
   */
  datatype PublishOptions = PublishOptions(
    rid: Option<string>,
    selfContained: Option<bool>,
    trimmed: Option<bool>,
    readyToRun: Option<bool>,
    aot: Option<bool>,
    frameworks: Option<seq<string>>)

  datatype Cmd =
    | ExecuteNew(template: string, name: string, directory: string, language: string, customArgs: string)
    | CopyHelper(directory: string, source: string, overwrite: bool)
    | ExecuteAddMultiTFM(name: string, directory: string, lang: Language, frameworks: seq<string>)
    | ExecuteAddClassReference(directory: string)
    | ExecuteBuild(directory: string)
    | ExecuteRunWeb(directory: string)
    | ExecuteRunUIApp(directory: string, targetFrameworks: Option<seq<string>>)
    | ExecuteRun(directory: string, targetFrameworks: Option<seq<string>>)
    | ExecutePublish(directory: string, options: PublishOptions)
    | ExecuteTest(directory: string)
    | ExecuteWorkloadInstall(directory: string, workload: string)
    | ExecuteWorkloadList(directory: string, workload: string, expectInstalled: bool)
    | ExecuteWorkloadUninstall(directory: string, workload: string)
}
