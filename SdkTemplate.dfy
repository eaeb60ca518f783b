/**
 * `SdkTemplateTest`: one template scenario. `Execute` scaffolds (or copies) a
 * project and then drives the SDK through the steps its action flags select,
 * always in one fixed order.
 */
module SdkTemplate {
  import opened Wrappers
  import opened Text
  import opened Paths
  import opened SdkCommands

  /** `DotNetSdkTemplate`. */
  datatype Template =
    | Console | ClassLib | XUnit | NUnit | MSTest | Web | Mvc | Razor | BlazorWasm | BlazorServer
    | WebApi | WebApp | Worker | Angular | Wpf | Winforms | Aspire | Maui | MacCatalyst

  /** The enum member's name, as `{Template}` renders it in an interpolated string. */
  function TemplateName(t: Template): string {
    match t
    case Console => "Console"
    case ClassLib => "ClassLib"
    case XUnit => "XUnit"
    case NUnit => "NUnit"
    case MSTest => "MSTest"
    case Web => "Web"
    case Mvc => "Mvc"
    case Razor => "Razor"
    case BlazorWasm => "BlazorWasm"
    case BlazorServer => "BlazorServer"
    case WebApi => "WebApi"
    case WebApp => "WebApp"
    case Worker => "Worker"
    case Angular => "Angular"
    case Wpf => "Wpf"
    case Winforms => "Winforms"
    case Aspire => "Aspire"
    case Maui => "maui"
    case MacCatalyst => "maccatalyst"
  }

  /**
   * What the template's extension methods `GetName()`, `IsAspNetCore()` and
   * `isUIApp()` answer for the scenario's template.
   */
  datatype TemplateTraits = TemplateTraits(shortName: string, isAspNetCore: bool, isUIApp: bool)

  /** The members of the `DotNetSdkActions` flags enumeration; a set of them is a flags value. */
  datatype Action =
    | Build | Run | Publish | PublishComplex | PublishR2R | PublishAot | Test
    | AddClassLibRef | AddMultiTargetFramework | Workload

  /** The properties of one `SdkTemplateTest` object. */
  datatype SdkTemplateTest = SdkTemplateTest(
    scenarioName: string,
    language: Language,
    targetRid: string,
    template: Template,
    commands: set<Action>)

  /** The test-run environment that `Execute` reads besides its object. */
  datatype Host = Host(testRoot: string, baseDirectory: string, sep: char)

  /** The receiver and arguments of one `Execute` call. */
  datatype Call = Call(
    test: SdkTemplateTest,
    traits: TemplateTraits,
    host: Host,
    frameworks: Option<seq<string>>,
    preMadeSolution: Option<string>)

  /** `NoHttps`: the target runtime identifier names macOS. */
  predicate NoHttps(rid: string)
    ensures NoHttps(rid) <==> exists i: nat :: OccursAt(rid, "osx", i)
  {
    Contains(rid, "osx")
  }

  /**
   * `TargetArchitecture`: the second `-`-separated segment of the runtime
   * identifier. Without a `-` the C# indexer throws, hence the precondition.
   */
  function TargetArchitecture(rid: string): (arch: string)
    requires '-' in rid
    ensures '-' !in arch && |arch| < |rid|
  {
    SplitPieces(rid, '-');
    SecondSegment(rid, '-');
    Split(rid, '-')[1]
  }

  /**
   * The architecture is the text between the first `-` and the next `-` (or
   * the end), and holds no `-` itself.
   */
  lemma TargetArchitectureIsSecondSegment(rid: string)
    requires '-' in rid
    ensures var arch := TargetArchitecture(rid);
      && '-' !in arch
      && exists k :: 0 <= k < |rid| && rid[k] == '-' && '-' !in rid[..k]
                     && StartsWith(rid[k + 1..], arch)
                     && (k + 1 + |arch| == |rid| || rid[k + 1 + |arch|] == '-')
  {
    SplitPieces(rid, '-');
    SecondSegment(rid, '-');
  }

  /** `projectName`: scenario, template and language names joined by `_`. */
  function ProjectName(t: SdkTemplateTest): string {
    t.scenarioName + "_" + TemplateName(t.template) + "_" + t.language.name
  }

  /** `customNewArgs`. */
  function CustomNewArgs(t: SdkTemplateTest, traits: TemplateTraits): string {
    if traits.isAspNetCore && NoHttps(t.targetRid) then "--no-https" else ""
  }

  /**
   * `PreMadeName`: the last separator-delimited segment of the pre-made
   * solution path, or the whole path when it has no separator.
   */
  function PreMadeName(preMade: string, sep: char): string {
    if sep in preMade then LastSegment(preMade, sep) else preMade
  }

  /** The pre-made name is the path's final segment: no separator, a suffix, preceded by a separator. */
  lemma PreMadeNameIsLastSegment(preMade: string, sep: char)
    ensures var name := PreMadeName(preMade, sep);
      && name == LastSegment(preMade, sep)
      && sep !in name && EndsWith(preMade, name)
      && (sep !in preMade ==> name == preMade)
      && (|name| < |preMade| ==> preMade[|preMade| - |name| - 1] == sep)
  {
    LastSegmentIsSuffix(preMade, sep);
  }

  /** The final value of `projectDirectory`. */
  function ProjectDirectory(c: Call): string {
    match c.preMadeSolution
    case None => Combine(c.host.testRoot, ProjectName(c.test), c.host.sep)
    case Some(p) => Combine(c.host.testRoot, PreMadeName(p, c.host.sep), c.host.sep)
  }

  /** The architecture-specific publishes only evaluate `TargetArchitecture` when selected. */
  predicate ArchitectureDefined(t: SdkTemplateTest) {
    (PublishComplex in t.commands || PublishR2R in t.commands) ==> '-' in t.targetRid
  }

  /** The stages of `Execute`, in the order it runs them; `WorkloadStage` belongs to `DotnetWorkloadTest`. */
  datatype Stage =
    | SetupStage | MultiTargetStage | ClassLibRefStage | BuildStage | RunStage
    | PublishStage | PublishComplexStage | PublishR2RStage | PublishAotStage | TestStage
    | WorkloadStage

  function StageIndex(s: Stage): nat {
    match s
    case SetupStage => 0
    case MultiTargetStage => 1
    case ClassLibRefStage => 2
    case BuildStage => 3
    case RunStage => 4
    case PublishStage => 5
    case PublishComplexStage => 6
    case PublishR2RStage => 7
    case PublishAotStage => 8
    case TestStage => 9
    case WorkloadStage => 10
  }

  /**
   * The stage a command belongs to, read off the command alone: the publish
   * variants are told apart by the options they pass.
   */
  function StageOf(cmd: Cmd): Stage {
    match cmd
    case ExecuteNew(_, _, _, _, _) => SetupStage
    case CopyHelper(_, _, _) => SetupStage
    case ExecuteAddMultiTFM(_, _, _, _) => MultiTargetStage
    case ExecuteAddClassReference(_) => ClassLibRefStage
    case ExecuteBuild(_) => BuildStage
    case ExecuteRunWeb(_) => RunStage
    case ExecuteRunUIApp(_, _) => RunStage
    case ExecuteRun(_, _) => RunStage
    case ExecutePublish(_, o) =>
      if o.aot == Some(true) then PublishAotStage
      else if o.readyToRun == Some(true) then PublishR2RStage
      else if o.selfContained.Some? then PublishComplexStage
      else PublishStage
    case ExecuteTest(_) => TestStage
    case ExecuteWorkloadInstall(_, _) => WorkloadStage
    case ExecuteWorkloadList(_, _, _) => WorkloadStage
    case ExecuteWorkloadUninstall(_, _) => WorkloadStage
  }

  /** The run variant: web for ASP.NET Core, else UI for UI apps, else console. */
  function RunCommand(traits: TemplateTraits, dir: string, frameworks: Option<seq<string>>): Cmd {
    if traits.isAspNetCore then ExecuteRunWeb(dir)
    else if traits.isUIApp then ExecuteRunUIApp(dir, frameworks)
    else ExecuteRun(dir, frameworks)
  }

  function PublishWith(rid: Option<string>, selfContained: Option<bool>, trimmed: Option<bool>,
                       readyToRun: Option<bool>, aot: Option<bool>): PublishOptions {
    PublishOptions(rid, selfContained, trimmed, readyToRun, aot, None)
  }

  function SetupCommands(c: Call): seq<Cmd> {
    var t := c.test;
    match c.preMadeSolution
    case None =>
      [ExecuteNew(c.traits.shortName, ProjectName(t), ProjectDirectory(c), t.language.cliName, CustomNewArgs(t, c.traits))]
    case Some(p) =>
      [CopyHelper(ProjectDirectory(c), Combine(c.host.baseDirectory, p, c.host.sep), true)]
  }

  function MultiTargetCommands(c: Call): seq<Cmd> {
    if c.frameworks.Some? then [ExecuteAddMultiTFM(ProjectName(c.test), ProjectDirectory(c), c.test.language, c.frameworks.value)]
    else []
  }

  function ClassLibRefCommands(c: Call): seq<Cmd> {
    if AddClassLibRef in c.test.commands then [ExecuteAddClassReference(ProjectDirectory(c))] else []
  }

  function BuildCommands(c: Call): seq<Cmd> {
    if Build in c.test.commands then [ExecuteBuild(ProjectDirectory(c))] else []
  }

  function RunCommands(c: Call): seq<Cmd> {
    if Run in c.test.commands then [RunCommand(c.traits, ProjectDirectory(c), c.frameworks)] else []
  }

  function PublishCommands(c: Call): seq<Cmd> {
    if Publish in c.test.commands then [ExecutePublish(ProjectDirectory(c), PublishOptions(None, None, None, None, None, c.frameworks))]
    else []
  }

  function PublishComplexCommands(c: Call): seq<Cmd>
    requires ArchitectureDefined(c.test)
  {
    var dir := ProjectDirectory(c);
    if PublishComplex in c.test.commands then
      [ExecutePublish(dir, PublishWith(None, Some(false), None, None, None)),
       ExecutePublish(dir, PublishWith(Some(c.test.targetRid), Some(true), None, None, None)),
       ExecutePublish(dir, PublishWith(Some("linux-" + TargetArchitecture(c.test.targetRid)), Some(true), None, None, None))]
    else []
  }

  function PublishR2RCommands(c: Call): seq<Cmd>
    requires ArchitectureDefined(c.test)
  {
    if PublishR2R in c.test.commands then
      [ExecutePublish(ProjectDirectory(c),
                      PublishWith(Some("linux-" + TargetArchitecture(c.test.targetRid)), Some(true), Some(true), Some(true), None))]
    else []
  }

  function PublishAotCommands(c: Call): seq<Cmd> {
    if PublishAot in c.test.commands then
      [ExecutePublish(ProjectDirectory(c), PublishWith(Some(c.test.targetRid), None, None, None, Some(true)))]
    else []
  }

  function TestCommands(c: Call): seq<Cmd> {
    if Test in c.test.commands then [ExecuteTest(ProjectDirectory(c))] else []
  }

  /** The commands one stage of `Execute` issues. */
  function Segment(c: Call, s: Stage): seq<Cmd>
    requires ArchitectureDefined(c.test)
  {
    match s
    case SetupStage => SetupCommands(c)
    case MultiTargetStage => MultiTargetCommands(c)
    case ClassLibRefStage => ClassLibRefCommands(c)
    case BuildStage => BuildCommands(c)
    case RunStage => RunCommands(c)
    case PublishStage => PublishCommands(c)
    case PublishComplexStage => PublishComplexCommands(c)
    case PublishR2RStage => PublishR2RCommands(c)
    case PublishAotStage => PublishAotCommands(c)
    case TestStage => TestCommands(c)
    case WorkloadStage => []
  }

  /** Every command a stage issues is classified as that stage. */
  lemma SegmentStages(c: Call, s: Stage)
    requires ArchitectureDefined(c.test)
    ensures forall k :: 0 <= k < |Segment(c, s)| ==> StageOf(Segment(c, s)[k]) == s
  {
    match s
    case SetupStage =>
    case MultiTargetStage =>
    case ClassLibRefStage =>
    case BuildStage =>
    case RunStage =>
    case PublishStage =>
    case PublishComplexStage =>
    case PublishR2RStage =>
    case PublishAotStage =>
    case TestStage =>
    case WorkloadStage =>
  }

  /** The stage at position `k` of `Execute`'s fixed order. */
  function StageAt(k: nat): (s: Stage)
    requires k < 10
    ensures StageIndex(s) == k
  {
    if k == 0 then SetupStage
    else if k == 1 then MultiTargetStage
    else if k == 2 then ClassLibRefStage
    else if k == 3 then BuildStage
    else if k == 4 then RunStage
    else if k == 5 then PublishStage
    else if k == 6 then PublishComplexStage
    else if k == 7 then PublishR2RStage
    else if k == 8 then PublishAotStage
    else TestStage
  }

  lemma StageAtIndex(s: Stage)
    requires StageIndex(s) < 10
    ensures StageAt(StageIndex(s)) == s
  {
  }

  /** The commands of the first `k` stages of the fixed order. */
  function PlanUpTo(c: Call, k: nat): seq<Cmd>
    requires ArchitectureDefined(c.test)
    requires k <= 10
  {
    if k == 0 then [] else PlanUpTo(c, k - 1) + Segment(c, StageAt(k - 1))
  }

  /** The whole trace of `Execute`: each stage's commands in the fixed order. */
  function Plan(c: Call): seq<Cmd>
    requires ArchitectureDefined(c.test)
  {
    SetupCommands(c) + MultiTargetCommands(c) + ClassLibRefCommands(c) + BuildCommands(c)
    + RunCommands(c) + PublishCommands(c) + PublishComplexCommands(c) + PublishR2RCommands(c)
    + PublishAotCommands(c) + TestCommands(c)
  }

  lemma PlanIsPlanUpTo(c: Call)
    requires ArchitectureDefined(c.test)
    ensures Plan(c) == PlanUpTo(c, 10)
  {
    assert PlanUpTo(c, 1) == SetupCommands(c);
    assert PlanUpTo(c, 2) == PlanUpTo(c, 1) + MultiTargetCommands(c);
    assert PlanUpTo(c, 3) == PlanUpTo(c, 2) + ClassLibRefCommands(c);
    assert PlanUpTo(c, 4) == PlanUpTo(c, 3) + BuildCommands(c);
    assert PlanUpTo(c, 5) == PlanUpTo(c, 4) + RunCommands(c);
    assert PlanUpTo(c, 6) == PlanUpTo(c, 5) + PublishCommands(c);
    assert PlanUpTo(c, 7) == PlanUpTo(c, 6) + PublishComplexCommands(c);
    assert PlanUpTo(c, 8) == PlanUpTo(c, 7) + PublishR2RCommands(c);
    assert PlanUpTo(c, 9) == PlanUpTo(c, 8) + PublishAotCommands(c);
    assert PlanUpTo(c, 10) == PlanUpTo(c, 9) + TestCommands(c);
  }

  /** The stages of a trace never go backwards. */
  ghost predicate InStageOrder(trace: seq<Cmd>) {
    forall i, j :: 0 <= i < j < |trace| ==> StageIndex(StageOf(trace[i])) <= StageIndex(StageOf(trace[j]))
  }

  lemma {:induction false} PlanUpToOrdered(c: Call, k: nat)
    requires ArchitectureDefined(c.test)
    requires k <= 10
    ensures InStageOrder(PlanUpTo(c, k))
    ensures forall m :: 0 <= m < |PlanUpTo(c, k)| ==> StageIndex(StageOf(PlanUpTo(c, k)[m])) < k
  {
    if k > 0 {
      var init := PlanUpTo(c, k - 1);
      var last := Segment(c, StageAt(k - 1));
      PlanUpToOrdered(c, k - 1);
      SegmentStages(c, StageAt(k - 1));
      var all := init + last;
      assert all == PlanUpTo(c, k);
      forall i, j | 0 <= i < j < |all|
        ensures StageIndex(StageOf(all[i])) <= StageIndex(StageOf(all[j]))
      {
        if j < |init| {
        } else if i < |init| {
          assert all[j] == last[j - |init|];
        } else {
          assert all[i] == last[i - |init|] && all[j] == last[j - |init|];
        }
      }
      forall m | 0 <= m < |all| ensures StageIndex(StageOf(all[m])) < k {
        if m >= |init| {
          assert all[m] == last[m - |init|];
        }
      }
    }
  }

  /** The trace `Execute` issues runs its stages in the fixed order. */
  lemma PlanInStageOrder(c: Call)
    requires ArchitectureDefined(c.test)
    ensures InStageOrder(Plan(c))
    ensures forall k :: 0 <= k < |Plan(c)| ==> StageOf(Plan(c)[k]) != WorkloadStage
  {
    var upTo := PlanUpTo(c, 10);
    PlanIsPlanUpTo(c);
    PlanUpToOrdered(c, 10);
    forall k | 0 <= k < |upTo| ensures StageOf(upTo[k]) != WorkloadStage {
      assert StageIndex(StageOf(upTo[k])) < 10;
    }
  }

  /** The commands of `trace` that belong to stage `s`, in order. */
  function Only(trace: seq<Cmd>, s: Stage): (r: seq<Cmd>)
    ensures |r| <= |trace|
  {
    if |trace| == 0 then []
    else if StageOf(trace[0]) == s then [trace[0]] + Only(trace[1..], s)
    else Only(trace[1..], s)
  }

  lemma {:induction false} OnlyAppend(a: seq<Cmd>, b: seq<Cmd>, s: Stage)
    ensures Only(a + b, s) == Only(a, s) + Only(b, s)
  {
    if |a| > 0 {
      assert (a + b)[1..] == a[1..] + b;
      OnlyAppend(a[1..], b, s);
    } else {
      assert a + b == b;
    }
  }

  lemma {:induction false} OnlyUniform(a: seq<Cmd>, s: Stage)
    requires forall k :: 0 <= k < |a| ==> StageOf(a[k]) == s
    ensures Only(a, s) == a
    ensures forall s' :: s' != s ==> Only(a, s') == []
  {
    if |a| > 0 {
      OnlyUniform(a[1..], s);
      assert a == [a[0]] + a[1..];
    }
  }

  lemma {:induction false} OnlyPlanUpTo(c: Call, k: nat, s: Stage)
    requires ArchitectureDefined(c.test)
    requires k <= 10
    ensures Only(PlanUpTo(c, k), s) == if StageIndex(s) < k then Segment(c, s) else []
  {
    if k > 0 {
      var last := Segment(c, StageAt(k - 1));
      SegmentStages(c, StageAt(k - 1));
      OnlyUniform(last, StageAt(k - 1));
      OnlyAppend(PlanUpTo(c, k - 1), last, s);
      OnlyPlanUpTo(c, k - 1, s);
      if StageIndex(s) == k - 1 {
        StageAtIndex(s);
      }
    }
  }

  /** The number of commands a stage is expected to issue, read off the inputs. */
  function ExpectedCount(c: Call, s: Stage): nat {
    var flags := c.test.commands;
    match s
    case SetupStage => 1
    case MultiTargetStage => if c.frameworks.Some? then 1 else 0
    case ClassLibRefStage => if AddClassLibRef in flags then 1 else 0
    case BuildStage => if Build in flags then 1 else 0
    case RunStage => if Run in flags then 1 else 0
    case PublishStage => if Publish in flags then 1 else 0
    case PublishComplexStage => if PublishComplex in flags then 3 else 0
    case PublishR2RStage => if PublishR2R in flags then 1 else 0
    case PublishAotStage => if PublishAot in flags then 1 else 0
    case TestStage => if Test in flags then 1 else 0
    case WorkloadStage => 0
  }

  lemma SegmentCount(c: Call, s: Stage)
    requires ArchitectureDefined(c.test)
    ensures |Segment(c, s)| == ExpectedCount(c, s)
  {
  }

  /**
   * Each stage's commands in the trace are exactly the ones it issues, and
   * their number is the expected count: an unselected stage issues nothing.
   */
  lemma PlanStages(c: Call, s: Stage)
    requires ArchitectureDefined(c.test)
    ensures Only(Plan(c), s) == Segment(c, s)
    ensures |Only(Plan(c), s)| == ExpectedCount(c, s)
  {
    PlanIsPlanUpTo(c);
    OnlyPlanUpTo(c, 10, s);
    SegmentCount(c, s);
  }

  lemma {:induction false} OnlyEmpty(a: seq<Cmd>, s: Stage, k: nat)
    requires Only(a, s) == [] && k < |a|
    ensures StageOf(a[k]) != s
  {
    if k > 0 {
      OnlyEmpty(a[1..], s, k - 1);
    }
  }

  /**
   * The trace starts with the workspace: `new` in `testRoot/projectName` with
   * `--no-https` exactly for ASP.NET Core templates targeting macOS, or a copy
   * of the pre-made solution into `testRoot/<its last segment>`, in which case
   * no `new` is issued at all.
   */
  lemma PlanStartsWithWorkspace(c: Call)
    requires ArchitectureDefined(c.test)
    ensures |Plan(c)| > 0
    ensures c.preMadeSolution.None? ==>
      var name := ProjectName(c.test);
      Plan(c)[0] == ExecuteNew(c.traits.shortName, name, Combine(c.host.testRoot, name, c.host.sep),
                               c.test.language.cliName,
                               if c.traits.isAspNetCore && exists i: nat :: OccursAt(c.test.targetRid, "osx", i)
                               then "--no-https" else "")
    ensures c.preMadeSolution.Some? ==>
      var p := c.preMadeSolution.value;
      && Plan(c)[0] == CopyHelper(Combine(c.host.testRoot, PreMadeName(p, c.host.sep), c.host.sep),
                                  Combine(c.host.baseDirectory, p, c.host.sep), true)
      && forall k :: 0 <= k < |Plan(c)| ==> !Plan(c)[k].ExecuteNew?
    ensures forall k :: 0 < k < |Plan(c)| ==> StageOf(Plan(c)[k]) != SetupStage
  {
    var plan := Plan(c);
    var setup := SetupCommands(c);
    PlanStages(c, SetupStage);
    assert |setup| == 1;
    assert plan == setup + plan[1..];
    OnlyAppend(setup, plan[1..], SetupStage);
    assert Only(setup, SetupStage) == setup;
    assert Only(plan[1..], SetupStage) == [];
    forall k | 0 < k < |plan| ensures StageOf(plan[k]) != SetupStage {
      OnlyEmpty(plan[1..], SetupStage, k - 1);
    }
  }

  /** When Run is selected exactly one run command is issued: web, else UI, else console. */
  lemma PlanRunVariant(c: Call)
    requires ArchitectureDefined(c.test)
    requires Run in c.test.commands
    ensures |Only(Plan(c), RunStage)| == 1
    ensures var r := Only(Plan(c), RunStage)[0];
      && (r.ExecuteRunWeb? <==> c.traits.isAspNetCore)
      && (r.ExecuteRunUIApp? <==> !c.traits.isAspNetCore && c.traits.isUIApp)
      && (r.ExecuteRun? <==> !c.traits.isAspNetCore && !c.traits.isUIApp)
      && r.directory == ProjectDirectory(c)
  {
    PlanStages(c, RunStage);
  }

  /**
   * PublishComplex issues three publishes in order: framework-dependent,
   * self-contained for the target RID, self-contained for Linux on the target
   * architecture.
   */
  lemma PlanPublishComplex(c: Call)
    requires ArchitectureDefined(c.test)
    requires PublishComplex in c.test.commands
    ensures var dir := ProjectDirectory(c);
      Only(Plan(c), PublishComplexStage) ==
        [ExecutePublish(dir, PublishWith(None, Some(false), None, None, None)),
         ExecutePublish(dir, PublishWith(Some(c.test.targetRid), Some(true), None, None, None)),
         ExecutePublish(dir, PublishWith(Some("linux-" + TargetArchitecture(c.test.targetRid)), Some(true), None, None, None))]
  {
    PlanStages(c, PublishComplexStage);
  }

  /**
   * PublishR2R issues one trimmed, ready-to-run, self-contained publish for
   * Linux on the target architecture; PublishAot one AOT publish for the target RID.
   */
  lemma PlanPublishR2RAndAot(c: Call)
    requires ArchitectureDefined(c.test)
    ensures PublishR2R in c.test.commands ==>
      Only(Plan(c), PublishR2RStage) ==
        [ExecutePublish(ProjectDirectory(c), PublishWith(Some("linux-" + TargetArchitecture(c.test.targetRid)),
                                                          Some(true), Some(true), Some(true), None))]
    ensures PublishAot in c.test.commands ==>
      Only(Plan(c), PublishAotStage) ==
        [ExecutePublish(ProjectDirectory(c), PublishWith(Some(c.test.targetRid), None, None, None, Some(true)))]
  {
    PlanStages(c, PublishR2RStage);
    PlanStages(c, PublishAotStage);
  }

  /** Chains the stage-by-stage equalities of `Execute` into `Plan`. */
  lemma PlanSteps(c: Call, p1: seq<Cmd>, p2: seq<Cmd>, p3: seq<Cmd>, p4: seq<Cmd>, p5: seq<Cmd>,
                  p6: seq<Cmd>, p7: seq<Cmd>, p8: seq<Cmd>, p9: seq<Cmd>, p10: seq<Cmd>)
    requires ArchitectureDefined(c.test)
    requires p1 == SetupCommands(c) && p2 == p1 + MultiTargetCommands(c)
    requires p3 == p2 + ClassLibRefCommands(c) && p4 == p3 + BuildCommands(c)
    requires p5 == p4 + RunCommands(c) && p6 == p5 + PublishCommands(c)
    requires p7 == p6 + PublishComplexCommands(c) && p8 == p7 + PublishR2RCommands(c)
    requires p9 == p8 + PublishAotCommands(c) && p10 == p9 + TestCommands(c)
    ensures p10 == Plan(c)
  {
  }

  /**
   * The workspace block of `Execute`: `new` into `testRoot/projectName`, which
   * it creates, or a copy of the pre-made solution into `testRoot/<its name>`.
   */
  method PrepareWorkspace(c: Call) returns (projectDirectory: string, createdDirectory: Option<string>, trace: seq<Cmd>)
    ensures projectDirectory == ProjectDirectory(c)
    ensures createdDirectory == if c.preMadeSolution.None? then Some(ProjectDirectory(c)) else None
    ensures trace == SetupCommands(c)
  {
    var t := c.test;
    var sep := c.host.sep;
    var projectName := ProjectName(t);
    var customNewArgs := if c.traits.isAspNetCore && NoHttps(t.targetRid) then "--no-https" else "";
    projectDirectory := Combine(c.host.testRoot, projectName, sep);
    trace := [];
    createdDirectory := None;

    if c.preMadeSolution.None? {
      createdDirectory := Some(projectDirectory);
      trace := trace + [ExecuteNew(c.traits.shortName, projectName, projectDirectory, t.language.cliName, customNewArgs)];
    } else {
      var preMade := c.preMadeSolution.value;
      var preMadeName;
      if sep in preMade {
        preMadeName := LastSegment(preMade, sep);
      } else {
        preMadeName := preMade;
      }
      projectDirectory := Combine(c.host.testRoot, preMadeName, sep);
      var fullPreMadePath := Combine(c.host.baseDirectory, preMade, sep);
      trace := trace + [CopyHelper(projectDirectory, fullPreMadePath, true)];
    }
  }

  /**
   * `Execute`: creates the project directory (unless a pre-made solution is
   * copied) and issues the commands of the selected stages in order.
   */
  method Execute(c: Call) returns (createdDirectory: Option<string>, trace: seq<Cmd>)
    requires ArchitectureDefined(c.test)
    ensures createdDirectory == if c.preMadeSolution.None? then Some(ProjectDirectory(c)) else None
    ensures trace == Plan(c)
  {
    var t := c.test;
    var projectName := ProjectName(t);
    var projectDirectory;
    projectDirectory, createdDirectory, trace := PrepareWorkspace(c);
    ghost var p1 := trace;

    if c.frameworks.Some? {
      trace := trace + [ExecuteAddMultiTFM(projectName, projectDirectory, t.language, c.frameworks.value)];
    }
    assert trace == p1 + MultiTargetCommands(c);
    ghost var p2 := trace;
    if AddClassLibRef in t.commands {
      trace := trace + [ExecuteAddClassReference(projectDirectory)];
    }
    assert trace == p2 + ClassLibRefCommands(c);
    ghost var p3 := trace;
    if Build in t.commands {
      trace := trace + [ExecuteBuild(projectDirectory)];
    }
    assert trace == p3 + BuildCommands(c);
    ghost var p4 := trace;
    if Run in t.commands {
      if c.traits.isAspNetCore {
        trace := trace + [ExecuteRunWeb(projectDirectory)];
      } else if c.traits.isUIApp {
        trace := trace + [ExecuteRunUIApp(projectDirectory, c.frameworks)];
      } else {
        trace := trace + [ExecuteRun(projectDirectory, c.frameworks)];
      }
    }
    assert trace == p4 + RunCommands(c);
    ghost var p5 := trace;
    if Publish in t.commands {
      trace := trace + [ExecutePublish(projectDirectory, PublishOptions(None, None, None, None, None, c.frameworks))];
    }
    assert trace == p5 + PublishCommands(c);
    ghost var p6 := trace;
    if PublishComplex in t.commands {
      var a := ExecutePublish(projectDirectory, PublishWith(None, Some(false), None, None, None));
      var b := ExecutePublish(projectDirectory, PublishWith(Some(t.targetRid), Some(true), None, None, None));
      var d := ExecutePublish(projectDirectory, PublishWith(Some("linux-" + TargetArchitecture(t.targetRid)), Some(true), None, None, None));
      trace := trace + [a, b, d];
    }
    assert trace == p6 + PublishComplexCommands(c);
    ghost var p7 := trace;
    if PublishR2R in t.commands {
      trace := trace + [ExecutePublish(projectDirectory, PublishWith(Some("linux-" + TargetArchitecture(t.targetRid)), Some(true), Some(true), Some(true), None))];
    }
    assert trace == p7 + PublishR2RCommands(c);
    ghost var p8 := trace;
    if PublishAot in t.commands {
      trace := trace + [ExecutePublish(projectDirectory, PublishWith(Some(t.targetRid), None, None, None, Some(true)))];
    }
    assert trace == p8 + PublishAotCommands(c);
    ghost var p9 := trace;
    if Test in t.commands {
      trace := trace + [ExecuteTest(projectDirectory)];
    }
    assert trace == p9 + TestCommands(c);
    PlanSteps(c, p1, p2, p3, p4, p5, p6, p7, p8, p9, trace);
  }

  /**
   * The console template scenario (Build | Run | PublishComplex | PublishR2R)
   * issues `new`, build, run, three publishes and the ready-to-run publish:
   * seven commands.
   */
  lemma ConsoleScenario(c: Call)
    requires c.test.template == Console && c.test.commands == {Build, Run, PublishComplex, PublishR2R}
    requires !c.traits.isAspNetCore && !c.traits.isUIApp
    requires c.frameworks.None? && c.preMadeSolution.None?
    requires '-' in c.test.targetRid
    ensures var dir := ProjectDirectory(c);
      var arch := TargetArchitecture(c.test.targetRid);
      Plan(c) == [
        ExecuteNew(c.traits.shortName, ProjectName(c.test), dir, c.test.language.cliName, ""),
        ExecuteBuild(dir),
        ExecuteRun(dir, None),
        ExecutePublish(dir, PublishWith(None, Some(false), None, None, None)),
        ExecutePublish(dir, PublishWith(Some(c.test.targetRid), Some(true), None, None, None)),
        ExecutePublish(dir, PublishWith(Some("linux-" + arch), Some(true), None, None, None)),
        ExecutePublish(dir, PublishWith(Some("linux-" + arch), Some(true), Some(true), Some(true), None))]
    ensures |Plan(c)| == 7
  {
    assert MultiTargetCommands(c) == [] && ClassLibRefCommands(c) == [];
    assert PublishCommands(c) == [] && PublishAotCommands(c) == [] && TestCommands(c) == [];
  }
}
