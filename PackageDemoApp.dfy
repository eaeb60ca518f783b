/**
 * `PackageDemoApp`: the package pipeline for `Microsoft.Extensions`, after
 * which a console project is created and the most downloaded package added
 * to it, with a check and a short preview of the project file.
 */
module PackageDemoApp {
  import opened Wrappers
  import opened Text
  import opened PackagePipeline

  const DemoQuery: string := "Microsoft.Extensions"

  /** The package whose project is created: the first analysis result, when there is one. */
  datatype Choice = Choice(id: string, version: string)

  /**
   * `Main` up to its final line: the search for `Microsoft.Extensions`, the
   * pipeline, and the package chosen for project creation. A completed run always has a choice, and the chosen
   * package has at least as many downloads as every package found.
   */
  method RunDemo(search: SearchProcess, document: Option<SearchDocument>)
    returns (searchArguments: string, outcome: Outcome, rows: seq<DisplayRow>, summary: Option<Summary>,
             chosen: Option<Choice>)
    ensures searchArguments == SearchArguments(DemoQuery)
    ensures outcome == SearchOutcome(search, document)
    ensures chosen.Some? <==> outcome.Completed?
    ensures chosen.Some? ==>
      && chosen.value == Choice(outcome.results[0].id, outcome.results[0].version)
      && forall i :: 0 <= i < |outcome.packages| ==>
           outcome.results[0].downloads >= outcome.packages[i].totalDownloads.GetOr(0)
  {
    var packageQuery := DemoQuery;
    searchArguments := "package search " + packageQuery + " --format json --verbosity detailed --take 10";
    outcome, rows, summary := SearchAndAnalyze(search, document);
    chosen := None;
    if outcome.Completed? {
      CompletedOutcome(search, document);
      var analysisResults := outcome.results;
      if |analysisResults| > 0 {
        var mostDownloadedPackage := analysisResults[0];
        chosen := Some(Choice(mostDownloadedPackage.id, mostDownloadedPackage.version));
      }
    }
  }

  /** The line saying whether the project file mentions the package. */
  function AddedMessage(projectContent: string, packageId: string): (m: string)
    ensures Contains(projectContent, packageId) <==> m == "Package " + packageId + " successfully added to project"
    ensures !Contains(projectContent, packageId) ==>
      m == "Warning: Package " + packageId + " may not have been added properly"
  {
    if Contains(projectContent, packageId) then "Package " + packageId + " successfully added to project"
    else "Warning: Package " + packageId + " may not have been added properly"
  }

  /** The preview of a file split into lines: the first ten, indented, then `  ...` when there are more. */
  function Preview(lines: seq<string>): (p: seq<string>)
    ensures |p| <= 11 && (|p| == 11 <==> |lines| > 10)
    ensures forall i :: 0 <= i < |p| ==> StartsWith(p[i], "  ")
  {
    var shown := if |lines| < 10 then |lines| else 10;
    seq(shown, i requires 0 <= i < shown => "  " + lines[i]) + (if |lines| > 10 then ["  ..."] else [])
  }

  /**
   * `min(10, n)` indented lines in order, then one `  ...` line exactly when
   * there are more than ten.
   */
  lemma PreviewShape(lines: seq<string>)
    ensures var p := Preview(lines);
      && |p| == (if |lines| < 10 then |lines| else 10) + (if |lines| > 10 then 1 else 0)
      && (forall i :: 0 <= i < |p| && i < 10 && i < |lines| ==> p[i] == "  " + lines[i])
      && (|lines| > 10 ==> p[10] == "  ...")
  {
  }

  /** The project file preview loop. */
  method PrintPreview(projectContent: string) returns (output: seq<string>)
    ensures output == Preview(Split(projectContent, '\n'))
  {
    var lines := Split(projectContent, '\n');
    var shown := if |lines| < 10 then |lines| else 10;
    output := [];
    for i := 0 to shown
      invariant output == seq(i, k requires 0 <= k < i => "  " + lines[k])
    {
      output := output + ["  " + lines[i]];
    }
    if |lines| > 10 {
      output := output + ["  ..."];
    }
  }

  /**
   * What the tool commands of `CreateProjectWithMostDownloadedPackage`
   * return, and the project file it finds (`None` if there is none).
   */
  datatype ProjectEnvironment = ProjectEnvironment(newExit: int, addExit: int, buildExit: int, projectFile: Option<string>)

  /** The commands issued in order; a failing one stops the rest. */
  function ProjectCommands(packageId: string, env: ProjectEnvironment): seq<string> {
    if env.newExit != 0 then ["new console"]
    else if env.addExit != 0 then ["new console", "add package " + packageId]
    else ["new console", "add package " + packageId, "build"]
  }

  /** The lines of the project file check. */
  function ProjectReport(packageId: string, projectFile: Option<string>): seq<string> {
    match projectFile
    case None => ["Warning: Project file not found after creation"]
    case Some(content) =>
      ["Project file created successfully", AddedMessage(content, packageId), "Project file content preview:"]
      + Preview(Split(content, '\n'))
  }

  /**
   * `CreateProjectWithMostDownloadedPackage`: `new console`, `add package`,
   * the project file check, then `build`; the first failing command ends it
   * (the error is caught and reported). The temporary directory is removed
   * whatever happens.
   */
  method CreateProjectWithMostDownloadedPackage(packageId: string, env: ProjectEnvironment)
    returns (commands: seq<string>, report: seq<string>, succeeded: bool)
    ensures commands == ProjectCommands(packageId, env)
    ensures report == if env.newExit == 0 && env.addExit == 0 then ProjectReport(packageId, env.projectFile) else []
    ensures succeeded <==> env.newExit == 0 && env.addExit == 0 && env.buildExit == 0
  {
    commands := ["new console"];
    report := [];
    succeeded := false;
    if env.newExit != 0 {
      return;
    }
    commands := commands + ["add package " + packageId];
    if env.addExit != 0 {
      return;
    }
    match env.projectFile {
      case None =>
        report := ["Warning: Project file not found after creation"];
      case Some(projectContent) =>
        report := ["Project file created successfully", AddedMessage(projectContent, packageId),
                   "Project file content preview:"];
        var preview := PrintPreview(projectContent);
        report := report + preview;
    }
    commands := commands + ["build"];
    succeeded := env.buildExit == 0;
  }

  /**
   * The commands always start with `new console`; `add package` names the
   * chosen Id, and `build` is issued only after the other two succeed.
   */
  lemma ProjectCommandsOrder(packageId: string, env: ProjectEnvironment)
    ensures var c := ProjectCommands(packageId, env);
      && 1 <= |c| <= 3 && c[0] == "new console"
      && (|c| >= 2 ==> c[1] == "add package " + packageId)
      && (|c| == 3 <==> env.newExit == 0 && env.addExit == 0)
  {
  }
}
