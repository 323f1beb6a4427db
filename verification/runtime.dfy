/** The phase dispatch runtime of src/runtime.rs: `cnb_runtime_all` and
    `cnb_runtime` as pure functions from an invocation to the effects they
    cause and the way the process ends. */
module Runtime {
  import opened Wrappers
  import opened Paths
  import TestModel

  // ------------------------------------------------------------ data model

  /** A buildpack API version; compared for exact equality only. */
  datatype Api = Api(major: nat, minor: nat)

  /** The API this runtime supports (src/lib.rs). */
  const SupportedApi := Api(0, 6)

  /** The descriptor read from `buildpack.toml`. */
  datatype BuildpackToml = BuildpackToml(api: Api, name: string, metadata: map<string, string>)

  /** The platform value built from the platform directory. */
  datatype Platform = Platform(env: map<string, string>)

  /** The plan a passing detect phase writes. */
  datatype BuildPlan = BuildPlan(provided: seq<string>, required: seq<string>)

  /** The plan the build phase reads. */
  datatype BuildpackPlan = BuildpackPlan(entries: seq<string>)

  datatype DetectOutcome = Pass(plan: BuildPlan) | Fail

  datatype Phase = Detect | Build | Test | Publish

  /** The context handed to each phase function (the publish context of
      src/publish.rs included). */
  datatype Context =
    | DetectContext(appDir: Path, stackId: string, platform: Platform,
                    buildpackDir: Path, descriptor: BuildpackToml)
    | BuildContext(layersDir: Path, appDir: Path, stackId: string, platform: Platform,
                   buildpackPlan: BuildpackPlan, buildpackDir: Path, descriptor: BuildpackToml)
    | TestContext(layersDir: Path, appDir: Path, stackId: string, platform: Platform,
                  buildpackDir: Path, descriptor: BuildpackToml)
    | PublishContext(appDir: Path, stackId: string, platform: Platform,
                     buildpackDir: Path, descriptor: BuildpackToml)

  function ContextPhase(c: Context): Phase {
    match c
    case DetectContext(_, _, _, _, _) => Detect
    case BuildContext(_, _, _, _, _, _, _) => Build
    case TestContext(_, _, _, _, _, _) => Test
    case PublishContext(_, _, _, _, _) => Publish
  }

  /** What the process can observe of its surroundings, as one snapshot: the
      working directory, the environment, which platform directories yield a
      platform value, which TOML files parse as a descriptor or a buildpack
      plan, and which paths a TOML document can be written to. */
  datatype World = World(
    currentDir: Option<Path>,
    vars: map<string, string>,
    platforms: map<Path, Platform>,
    descriptors: map<Path, BuildpackToml>,
    plans: map<Path, BuildpackPlan>,
    writable: set<Path>)

  /** The runtime's own error kinds. */
  datatype LibError =
    | CannotDetermineAppDirectory
    | CannotDetermineStackId
    | CannotCreatePlatformFromPath
    | CannotDetermineBuildpackDirectory
    | CannotReadBuildpackDescriptor
    | CannotReadBuildpackPlan
    | CannotWriteBuildPlan
    | CannotWriteTestResults

  /** The library's error type: one of the runtime's own kinds, or the
      buildpack's own error. Phase functions return this type too, so a
      phase function may also fail with a runtime kind; whichever error it
      returns reaches the handler unchanged. */
  datatype Error = LibError(kind: LibError) | BuildpackError(message: string)

  /** One process invocation: its argument vector, its world, the four phase
      functions and the error handler that turns an error into an exit code. */
  datatype Invocation = Invocation(
    argv: seq<string>,
    world: World,
    detectFn: Context -> Result<DetectOutcome, Error>,
    buildFn: Context -> Result<(), Error>,
    testFn: Context -> Result<TestModel.TestOutcome, Error>,
    publishFn: Context -> Result<(), Error>,
    handler: Error -> int)

  /** Effects in the order they happen. */
  datatype Effect =
    | Handled(error: Error)
    | Invoked(context: Context)
    | WroteBuildPlan(path: Path, plan: BuildPlan)
    | TestOutput(output: TestModel.Output)

  /** `Exit(code)` for `process::exit`, `Return` when the entry point returns. */
  datatype End = Exit(code: int) | Return

  datatype Run = Run(effects: seq<Effect>, end: End)

  // ------------------------------------------------------ reading the world

  const StackIdVar := "CNB_STACK_ID"
  const BuildpackDirVar := "CNB_BUILDPACK_DIR"
  const DescriptorFileName := "buildpack.toml"
  /** Test results go to the working directory. */
  const TestResultsPath := "."

  function ReadAppDir(w: World): Result<Path, LibError> {
    if w.currentDir.Some? then Ok(w.currentDir.value) else Err(CannotDetermineAppDirectory)
  }

  function ReadStackId(w: World): Result<string, LibError> {
    if StackIdVar in w.vars then Ok(w.vars[StackIdVar]) else Err(CannotDetermineStackId)
  }

  function ReadPlatform(w: World, dir: Path): Result<Platform, LibError> {
    if dir in w.platforms then Ok(w.platforms[dir]) else Err(CannotCreatePlatformFromPath)
  }

  function ReadBuildpackPlan(w: World, path: Path): Result<BuildpackPlan, LibError> {
    if path in w.plans then Ok(w.plans[path]) else Err(CannotReadBuildpackPlan)
  }

  /** `read_buildpack_dir`: the directory is the value of
      `CNB_BUILDPACK_DIR`, taken as it is. */
  function ReadBuildpackDir(w: World): (r: Result<Path, LibError>)
    ensures r.Ok? <==> BuildpackDirVar in w.vars
    ensures r.Ok? ==> r.value == w.vars[BuildpackDirVar]
    ensures r.Err? ==> r.error == CannotDetermineBuildpackDirectory
  {
    if BuildpackDirVar in w.vars then Ok(w.vars[BuildpackDirVar])
    else Err(CannotDetermineBuildpackDirectory)
  }

  /** `read_buildpack_toml`: the buildpack directory first, then
      `buildpack.toml` inside it. */
  function ReadBuildpackToml(w: World): (r: Result<BuildpackToml, LibError>)
    ensures BuildpackDirVar !in w.vars ==> r == Err(CannotDetermineBuildpackDirectory)
    ensures BuildpackDirVar in w.vars ==>
              var path := JoinPath(w.vars[BuildpackDirVar], DescriptorFileName);
              && (path in w.descriptors ==> r == Ok(w.descriptors[path]))
              && (path !in w.descriptors ==> r == Err(CannotReadBuildpackDescriptor))
  {
    var dir :- ReadBuildpackDir(w);
    var path := JoinPath(dir, DescriptorFileName);
    if path in w.descriptors then Ok(w.descriptors[path]) else Err(CannotReadBuildpackDescriptor)
  }

  /** The descriptor is looked up at a path whose file name is
      `buildpack.toml`, whatever the buildpack directory. */
  lemma DescriptorPathNamesDescriptor(dir: Path)
    ensures FileName(JoinPath(dir, DescriptorFileName)) == Some(DescriptorFileName)
  {
    FileNameOfJoin(dir, DescriptorFileName);
  }

  // ------------------------------------------------------------- arguments

  /** Positional arguments of each phase. */
  datatype Args =
    | DetectArgs(platformDir: Path, buildPlanPath: Path)
    | BuildArgs(layersDir: Path, platformDir: Path, buildpackPlanPath: Path)
    | TestArgs(layersDir: Path, platformDir: Path)
    | PublishArgs(platformDir: Path)

  function ArgsPhase(a: Args): Phase {
    match a
    case DetectArgs(_, _) => Detect
    case BuildArgs(_, _, _) => Build
    case TestArgs(_, _) => Test
    case PublishArgs(_) => Publish
  }

  /** The arguments in command-line order, program name excluded. */
  function Positional(a: Args): seq<string> {
    match a
    case DetectArgs(platform, plan) => [platform, plan]
    case BuildArgs(layers, platform, plan) => [layers, platform, plan]
    case TestArgs(layers, platform) => [layers, platform]
    case PublishArgs(platform) => [platform]
  }

  /** The exact length of the argument vector, program name included. */
  function Arity(p: Phase): nat {
    match p
    case Detect => 3
    case Build => 4
    case Test => 3
    case Publish => 2
  }

  /** `parse_{detect,build,test,publish}_args_or_exit`, `None` standing for
      the usage message and exit 1. */
  function ParseArgs(p: Phase, argv: seq<string>): (r: Option<Args>)
    ensures r.Some? <==> |argv| == Arity(p)
    ensures r.Some? ==> ArgsPhase(r.value) == p && argv == [argv[0]] + Positional(r.value)
  {
    if |argv| != Arity(p) then None
    else
      match p
      case Detect => Some(DetectArgs(argv[1], argv[2]))
      case Build => Some(BuildArgs(argv[1], argv[2], argv[3]))
      case Test => Some(TestArgs(argv[1], argv[2]))
      case Publish => Some(PublishArgs(argv[1]))
  }

  /** Round trip: the arguments of any phase, written after any program
      name, parse back to themselves. */
  lemma ParseArgsRoundTrip(program: string, a: Args)
    ensures |[program] + Positional(a)| == Arity(ArgsPhase(a))
    ensures ParseArgs(ArgsPhase(a), [program] + Positional(a)) == Some(a)
  {
  }

  // ------------------------------------------------------ context assembly

  /** `cnb_runtime_{detect,build,test,publish}` up to the phase function call:
      app directory, stack id, platform, (build only) buildpack plan,
      buildpack directory, descriptor; the first failing read is the error. */
  function AssembleContext(w: World, args: Args): (r: Result<Context, LibError>)
    ensures r.Ok? ==> ContextPhase(r.value) == ArgsPhase(args)
    ensures r.Ok? ==>
              && w.currentDir.Some? && r.value.appDir == w.currentDir.value
              && StackIdVar in w.vars && r.value.stackId == w.vars[StackIdVar]
              && args.platformDir in w.platforms
              && r.value.platform == w.platforms[args.platformDir]
              && BuildpackDirVar in w.vars && r.value.buildpackDir == w.vars[BuildpackDirVar]
              && ReadBuildpackToml(w) == Ok(r.value.descriptor)
    ensures r.Ok? && args.BuildArgs? ==>
              && r.value.layersDir == args.layersDir
              && args.buildpackPlanPath in w.plans
              && r.value.buildpackPlan == w.plans[args.buildpackPlanPath]
    ensures r.Ok? && args.TestArgs? ==> r.value.layersDir == args.layersDir
  {
    var appDir :- ReadAppDir(w);
    var stackId :- ReadStackId(w);
    var platform :- ReadPlatform(w, args.platformDir);
    match args
    case DetectArgs(_, _) =>
      var buildpackDir :- ReadBuildpackDir(w);
      var descriptor :- ReadBuildpackToml(w);
      Ok(DetectContext(appDir, stackId, platform, buildpackDir, descriptor))
    case BuildArgs(layersDir, _, planPath) =>
      var plan :- ReadBuildpackPlan(w, planPath);
      var buildpackDir :- ReadBuildpackDir(w);
      var descriptor :- ReadBuildpackToml(w);
      Ok(BuildContext(layersDir, appDir, stackId, platform, plan, buildpackDir, descriptor))
    case TestArgs(layersDir, _) =>
      var buildpackDir :- ReadBuildpackDir(w);
      var descriptor :- ReadBuildpackToml(w);
      Ok(TestContext(layersDir, appDir, stackId, platform, buildpackDir, descriptor))
    case PublishArgs(_) =>
      var buildpackDir :- ReadBuildpackDir(w);
      var descriptor :- ReadBuildpackToml(w);
      Ok(PublishContext(appDir, stackId, platform, buildpackDir, descriptor))
  }

  /** The sources context assembly consults, as an independent list. */
  datatype Source =
    | AppDirSource
    | StackIdSource
    | PlatformSource(dir: Path)
    | PlanSource(path: Path)
    | BuildpackDirSource
    | DescriptorSource

  function Sources(args: Args): seq<Source> {
    match args
    case BuildArgs(_, platformDir, planPath) =>
      [AppDirSource, StackIdSource, PlatformSource(platformDir), PlanSource(planPath),
       BuildpackDirSource, DescriptorSource]
    case _ =>
      [AppDirSource, StackIdSource, PlatformSource(args.platformDir),
       BuildpackDirSource, DescriptorSource]
  }

  /** The error reading one source gives, if any. */
  function SourceFailure(w: World, s: Source): Option<LibError> {
    var failed := match s
      case AppDirSource => ReadAppDir(w).Err?
      case StackIdSource => ReadStackId(w).Err?
      case PlatformSource(dir) => ReadPlatform(w, dir).Err?
      case PlanSource(path) => ReadBuildpackPlan(w, path).Err?
      case BuildpackDirSource => ReadBuildpackDir(w).Err?
      case DescriptorSource => ReadBuildpackToml(w).Err?;
    if !failed then None
    else Some(match s
      case AppDirSource => CannotDetermineAppDirectory
      case StackIdSource => CannotDetermineStackId
      case PlatformSource(_) => CannotCreatePlatformFromPath
      case PlanSource(_) => CannotReadBuildpackPlan
      case BuildpackDirSource => CannotDetermineBuildpackDirectory
      case DescriptorSource => ReadBuildpackToml(w).error)
  }

  /** The error of the first failing source in `srcs`, if any fails. */
  function FirstFailure(w: World, srcs: seq<Source>): Option<LibError> {
    if |srcs| == 0 then None
    else if SourceFailure(w, srcs[0]).Some? then SourceFailure(w, srcs[0])
    else FirstFailure(w, srcs[1..])
  }

  /** `FirstFailure` finds a failure exactly when some source fails, and
      what it finds is the failure of a source that comes before every
      other failing one. */
  lemma {:induction false} FirstFailureIsFirst(w: World, srcs: seq<Source>)
    ensures FirstFailure(w, srcs).None? <==> forall i :: 0 <= i < |srcs| ==> SourceFailure(w, srcs[i]).None?
    ensures FirstFailure(w, srcs).Some? ==>
              exists i :: && 0 <= i < |srcs|
                          && FirstFailure(w, srcs) == SourceFailure(w, srcs[i])
                          && forall j :: 0 <= j < i ==> SourceFailure(w, srcs[j]).None?
    decreases |srcs|
  {
    if |srcs| > 0 && SourceFailure(w, srcs[0]).None? {
      FirstFailureIsFirst(w, srcs[1..]);
      assert forall i :: 1 <= i < |srcs| ==> srcs[i] == srcs[1..][i - 1];
      if FirstFailure(w, srcs).Some? {
        var i :| && 0 <= i < |srcs[1..]|
                 && FirstFailure(w, srcs[1..]) == SourceFailure(w, srcs[1..][i])
                 && forall j :: 0 <= j < i ==> SourceFailure(w, srcs[1..][j]).None?;
        assert forall j :: 0 <= j < i + 1 ==> SourceFailure(w, srcs[j]).None?;
      }
    }
  }

  /** Context assembly fails exactly when one of its sources fails, and then
      with the error of the first failing source in reading order. */
  lemma AssemblyStopsAtFirstFailure(w: World, args: Args)
    ensures AssembleContext(w, args).Err? <==> FirstFailure(w, Sources(args)).Some?
    ensures AssembleContext(w, args).Err? ==>
              AssembleContext(w, args).error == FirstFailure(w, Sources(args)).value
  {
    var tail := [BuildpackDirSource, DescriptorSource];
    var rest := if args.BuildArgs? then [PlanSource(args.buildpackPlanPath)] + tail else tail;
    var s3 := [PlatformSource(args.platformDir)] + rest;
    var s2 := [StackIdSource] + s3;
    assert Sources(args) == [AppDirSource] + s2;
    FirstFailureCons(w, AppDirSource, s2);
    FirstFailureCons(w, StackIdSource, s3);
    FirstFailureCons(w, PlatformSource(args.platformDir), rest);
    if args.BuildArgs? {
      FirstFailureCons(w, PlanSource(args.buildpackPlanPath), tail);
    }
    FirstFailureCons(w, BuildpackDirSource, [DescriptorSource]);
    FirstFailureCons(w, DescriptorSource, []);
    assert FirstFailure(w, []) == None;
  }

  /** One step of the scan, on a list written as its head and tail. */
  lemma FirstFailureCons(w: World, s: Source, rest: seq<Source>)
    ensures FirstFailure(w, [s] + rest) ==
              if SourceFailure(w, s).Some? then SourceFailure(w, s) else FirstFailure(w, rest)
  {
  }

  /** Once the descriptor gate has passed, the same world cannot make
      context assembly fail on the buildpack directory or the descriptor:
      only the app directory, stack id, platform or plan can fail. */
  lemma AssemblyPastGateFailsEarly(w: World, args: Args)
    requires ReadBuildpackToml(w).Ok?
    ensures AssembleContext(w, args).Err? ==>
              AssembleContext(w, args).error in
                {CannotDetermineAppDirectory, CannotDetermineStackId,
                 CannotCreatePlatformFromPath, CannotReadBuildpackPlan}
  {
  }

  // ------------------------------------------------------------- phases

  /** How a phase function ends: by exiting itself, or by returning its
      result to the entry point. */
  datatype PhaseEnd = Exited(code: int) | Completed(result: Result<(), Error>)

  datatype PhaseRun = PhaseRun(effects: seq<Effect>, end: PhaseEnd)

  /** Argument parsing and context assembly, shared by the four phases. */
  datatype Prepared = BadArgs | NoContext(error: LibError) | Ready(args: Args, context: Context)

  function Prepare(p: Phase, inv: Invocation): (r: Prepared)
    ensures r == BadArgs <==> |inv.argv| != Arity(p)
    ensures r.Ready? ==> ContextPhase(r.context) == p && ArgsPhase(r.args) == p
    ensures r.Ready? ==> inv.argv == [inv.argv[0]] + Positional(r.args)
    ensures r.Ready? ==> AssembleContext(inv.world, r.args) == Ok(r.context)
    ensures r.NoContext? ==> AssembleContext(inv.world, ParseArgs(p, inv.argv).value) == Err(r.error)
  {
    match ParseArgs(p, inv.argv)
    case None => BadArgs
    case Some(args) =>
      match AssembleContext(inv.world, args)
      case Err(e) => NoContext(e)
      case Ok(c) => Ready(args, c)
  }

  /** The way a prepared phase ends when argument parsing or context
      assembly failed. */
  function NotReady(prep: Prepared): PhaseRun
    requires !prep.Ready?
  {
    if prep.BadArgs? then PhaseRun([], Exited(1))
    else PhaseRun([], Completed(Err(LibError(prep.error))))
  }

  /** `cnb_runtime_detect` after the detect function has run on `c`: a
      passing detection writes the build plan to the plan path and exits 0,
      a failing one exits 100 without writing. */
  function DetectPhase(inv: Invocation, args: Args, c: Context): (r: PhaseRun)
    requires args.DetectArgs?
    ensures forall i :: 0 <= i < |r.effects| ==> r.effects[i].WroteBuildPlan? && r.effects[i].path == args.buildPlanPath
    ensures r.end == Exited(0) <==>
              inv.detectFn(c).Ok? && inv.detectFn(c).value.Pass? && args.buildPlanPath in inv.world.writable
    ensures r.end == Exited(0) ==> r.effects == [WroteBuildPlan(args.buildPlanPath, inv.detectFn(c).value.plan)]
    ensures r.end == Exited(100) <==> inv.detectFn(c) == Ok(Fail)
    ensures r.end.Exited? ==> r.end.code in {0, 100}
    ensures r.end != Exited(0) ==> r.effects == []
    ensures inv.detectFn(c).Err? ==> r.end == Completed(Err(inv.detectFn(c).error))
  {
    match inv.detectFn(c)
    case Err(e) => PhaseRun([], Completed(Err(e)))
    case Ok(Fail) => PhaseRun([], Exited(100))
    case Ok(Pass(plan)) =>
      if args.buildPlanPath in inv.world.writable then
        PhaseRun([WroteBuildPlan(args.buildPlanPath, plan)], Exited(0))
      else PhaseRun([], Completed(Err(LibError(CannotWriteBuildPlan))))
  }

  /** `cnb_runtime_build` after the build function has run on `c`: whatever
      it returns is the result. */
  function BuildPhase(inv: Invocation, c: Context): (r: PhaseRun)
    ensures r.effects == [] && r.end.Completed?
    ensures r.end.result.Ok? <==> inv.buildFn(c).Ok?
    ensures inv.buildFn(c).Err? ==> r.end.result == Err(inv.buildFn(c).error)
  {
    match inv.buildFn(c)
    case Ok(_) => PhaseRun([], Completed(Ok(())))
    case Err(e) => PhaseRun([], Completed(Err(e)))
  }

  function TestOutputs(outs: seq<TestModel.Output>): (es: seq<Effect>)
    ensures |es| == |outs| && forall i :: 0 <= i < |outs| ==> es[i] == TestOutput(outs[i])
  {
    seq(|outs|, i requires 0 <= i < |outs| => TestOutput(outs[i]))
  }

  /** `cnb_runtime_test` after the test function has run on `c`: both
      outcomes write their results to the working directory first; then a
      pass exits 0 and a failure exits 1. */
  function TestPhase(inv: Invocation, c: Context): (r: PhaseRun)
    ensures forall i :: 0 <= i < |r.effects| ==> r.effects[i].TestOutput?
    ensures r.end.Exited? <==> inv.testFn(c).Ok? && TestResultsPath in inv.world.writable
    ensures r.end.Exited? ==>
              && r.end.code == (if inv.testFn(c).value.TestsPassed? then 0 else 1)
              && |r.effects| == 2
              && r.effects[0] == TestOutput(TestModel.WroteDocument(
                                   TestResultsPath, TestModel.Serialize(inv.testFn(c).value.results)))
    ensures r.end.Completed? ==> r.effects == [] && r.end.result.Err?
    ensures inv.testFn(c).Err? ==> r.end == Completed(Err(inv.testFn(c).error))
  {
    match inv.testFn(c)
    case Err(e) => PhaseRun([], Completed(Err(e)))
    case Ok(outcome) =>
      var out := TestModel.WriteTestResults(outcome.results, TestResultsPath,
                                            TestResultsPath in inv.world.writable);
      if out.1.Err? then PhaseRun(TestOutputs(out.0), Completed(Err(LibError(CannotWriteTestResults))))
      else PhaseRun(TestOutputs(out.0), Exited(if outcome.TestsPassed? then 0 else 1))
  }

  /** `cnb_runtime_publish` after the publish function has run on `c`:
      whatever it returns is the result. */
  function PublishPhase(inv: Invocation, c: Context): (r: PhaseRun)
    ensures r.effects == [] && r.end.Completed?
    ensures r.end.result.Ok? <==> inv.publishFn(c).Ok?
    ensures inv.publishFn(c).Err? ==> r.end.result == Err(inv.publishFn(c).error)
  {
    match inv.publishFn(c)
    case Ok(_) => PhaseRun([], Completed(Ok(())))
    case Err(e) => PhaseRun([], Completed(Err(e)))
  }

  /** What follows the phase function of `p`. It never calls a phase
      function or the handler itself, only detect writes a plan, and its
      exits use the protocol's codes. */
  function AfterPhase(p: Phase, inv: Invocation, args: Args, c: Context): (r: PhaseRun)
    requires ArgsPhase(args) == p
    ensures forall i :: 0 <= i < |r.effects| ==> !r.effects[i].Handled? && !r.effects[i].Invoked?
    ensures forall i :: 0 <= i < |r.effects| && r.effects[i].WroteBuildPlan? ==>
              p == Detect && args.DetectArgs? && r.effects[i].path == args.buildPlanPath
    ensures r.end.Exited? ==> r.end.code in {0, 1, 100}
  {
    match p
    case Detect => DetectPhase(inv, args, c)
    case Build => BuildPhase(inv, c)
    case Test => TestPhase(inv, c)
    case Publish => PublishPhase(inv, c)
  }

  /** The phase selected by `p`: arguments, context, then the phase function
      and what follows it. Only the first effect invokes a phase function,
      with the context assembled for `p`; no phase calls the handler; only
      detect writes a plan, to its second argument. */
  function RunPhase(p: Phase, inv: Invocation): (r: PhaseRun)
    ensures forall i :: 0 <= i < |r.effects| ==> !r.effects[i].Handled?
    ensures forall i :: 0 <= i < |r.effects| && r.effects[i].Invoked? ==>
              && i == 0 && Prepare(p, inv).Ready? && r.effects[i].context == Prepare(p, inv).context
              && ContextPhase(r.effects[i].context) == p && |inv.argv| == Arity(p)
    ensures forall i :: 0 <= i < |r.effects| && r.effects[i].WroteBuildPlan? ==>
              p == Detect && |inv.argv| == 3 && r.effects[i].path == inv.argv[2]
    ensures r.end.Exited? ==> r.end.code in {0, 1, 100}
    ensures |inv.argv| != Arity(p) ==> r == PhaseRun([], Exited(1))
  {
    var prep := Prepare(p, inv);
    if !prep.Ready? then NotReady(prep)
    else
      var after := AfterPhase(p, inv, prep.args, prep.context);
      var r := PhaseRun([Invoked(prep.context)] + after.effects, after.end);
      assert forall i :: 1 <= i < |r.effects| ==> r.effects[i] == after.effects[i - 1];
      assert prep.args.DetectArgs? ==> inv.argv[2] == prep.args.buildPlanPath;
      r
  }

  // ------------------------------------------------------------- dispatch

  function PhaseNamed(name: string): (p: Option<Phase>)
    ensures p == Some(Detect) <==> name == "detect"
    ensures p == Some(Build) <==> name == "build"
    ensures p == Some(Test) <==> name == "test"
    ensures p == Some(Publish) <==> name == "publish"
  {
    match name
    case "detect" => Some(Detect)
    case "build" => Some(Build)
    case "test" => Some(Test)
    case "publish" => Some(Publish)
    case _ => None
  }

  /** The phase named by the file name of the first argument, if any. */
  function InvokedPhase(argv: seq<string>): Option<Phase> {
    if |argv| == 0 then None
    else match FileName(argv[0])
      case None => None
      case Some(name) => PhaseNamed(name)
  }

  /** The program name each phase answers to. */
  function ExecutableName(p: Phase): string {
    match p
    case Detect => "detect"
    case Build => "build"
    case Test => "test"
    case Publish => "publish"
  }

  /** A phase is selected exactly when the file name of the program path is
      that phase's executable name; no other argument takes part. */
  lemma InvokedPhaseIsExecutableName(argv: seq<string>, p: Phase)
    ensures InvokedPhase(argv) == Some(p) <==> |argv| > 0 && FileName(argv[0]) == Some(ExecutableName(p))
    ensures |argv| > 0 ==> InvokedPhase(argv) == InvokedPhase(argv[..1])
  {
  }

  /** Only the final component of the program path selects the phase. */
  lemma InvokedPhaseByFileName(dir: Path, name: string, rest: seq<string>)
    requires name in {"detect", "build", "test", "publish"}
    ensures InvokedPhase([dir + "/" + name] + rest) == PhaseNamed(name)
    ensures InvokedPhase([name] + rest) == PhaseNamed(name)
  {
    FileNameOfChild(dir, name);
    FileNameOfName(name);
  }

  predicate DescriptorReadable(w: World) {
    ReadBuildpackToml(w).Ok?
  }

  predicate ApiSupported(w: World) {
    DescriptorReadable(w) && ReadBuildpackToml(w).value.api == SupportedApi
  }

  /** Calls the error handler on `e` and exits with the code it returns. */
  function Handle(inv: Invocation, effects: seq<Effect>, e: Error): Run {
    Run(effects + [Handled(e)], Exit(inv.handler(e)))
  }

  /** The entry point's reaction to a phase: an exit stands, a successful
      return returns, an error goes to the handler. */
  function Finish(inv: Invocation, pr: PhaseRun): Run {
    match pr.end
    case Exited(code) => Run(pr.effects, Exit(code))
    case Completed(Ok(_)) => Run(pr.effects, Return)
    case Completed(Err(e)) => Handle(inv, pr.effects, e)
  }

  /** An error returned to the entry point goes to the handler once, as the
      last effect, and its code is the exit code; a phase that exits itself
      keeps its code, and a successful return adds nothing. */
  lemma FinishOutcome(inv: Invocation, pr: PhaseRun)
    ensures var r := Finish(inv, pr);
            && r.effects[..|pr.effects|] == pr.effects
            && (r.end == Return <==> pr.end.Completed? && pr.end.result.Ok?)
            && (pr.end.Exited? ==> r == Run(pr.effects, Exit(pr.end.code)))
            && (|r.effects| > |pr.effects| <==> pr.end.Completed? && pr.end.result.Err?)
            && (pr.end.Completed? && pr.end.result.Err? ==>
                  var e := pr.end.result.error;
                  r.effects == pr.effects + [Handled(e)] && r.end == Exit(inv.handler(e)))
  {
  }

  /** The entry points with the set of phases they accept. */
  function Dispatch(inv: Invocation, supported: set<Phase>): (r: Run)
    ensures !DescriptorReadable(inv.world) ==>
              var e := LibError(ReadBuildpackToml(inv.world).error);
              r == Run([Handled(e)], Exit(inv.handler(e)))
    ensures DescriptorReadable(inv.world) && !ApiSupported(inv.world) ==> r == Run([], Exit(254))
    ensures ApiSupported(inv.world) && !(InvokedPhase(inv.argv).Some? && InvokedPhase(inv.argv).value in supported) ==>
              r == Run([], Exit(255))
    ensures ApiSupported(inv.world) && InvokedPhase(inv.argv).Some?
            && InvokedPhase(inv.argv).value in supported
            && |inv.argv| != Arity(InvokedPhase(inv.argv).value) ==>
              r == Run([], Exit(1))
  {
    match ReadBuildpackToml(inv.world)
    case Err(e) => Handle(inv, [], LibError(e))
    case Ok(descriptor) =>
      if descriptor.api != SupportedApi then Run([], Exit(254))
      else
        match InvokedPhase(inv.argv)
        case None => Run([], Exit(255))
        case Some(phase) =>
          if phase !in supported then Run([], Exit(255))
          else Finish(inv, RunPhase(phase, inv))
  }

  const AllPhases: set<Phase> := {Detect, Build, Test, Publish}

  /** `cnb_runtime_all`: the four-phase entry point. */
  function CnbRuntimeAll(inv: Invocation): (r: Run)
    ensures ApiSupported(inv.world) && InvokedPhase(inv.argv).None? ==> r == Run([], Exit(255))
    ensures DescriptorReadable(inv.world) && !ApiSupported(inv.world) ==> r == Run([], Exit(254))
  {
    Dispatch(inv, AllPhases)
  }

  /** `cnb_runtime`: detect and build only; `test` and `publish` are
      unknown names here. The test and publish functions are not consulted. */
  function CnbRuntime(inv: Invocation): (r: Run)
    ensures ApiSupported(inv.world) && InvokedPhase(inv.argv) in {Some(Test), Some(Publish)} ==>
              r == Run([], Exit(255))
    ensures InvokedPhase(inv.argv) !in {Some(Test), Some(Publish)} ==> r == CnbRuntimeAll(inv)
  {
    Dispatch(inv, {Detect, Build})
  }

  // ------------------------------------------------------------- properties

  /** The gate has passed and the program name selects phase `p`, which the
      entry point supports. */
  predicate Dispatched(inv: Invocation, supported: set<Phase>, p: Phase) {
    ApiSupported(inv.world) && InvokedPhase(inv.argv) == Some(p) && p in supported
  }

  /** Once dispatched, the run is the selected phase's run as the entry
      point finishes it. */
  lemma DispatchRunsPhase(inv: Invocation, supported: set<Phase>, p: Phase)
    requires Dispatched(inv, supported, p)
    ensures Dispatch(inv, supported) == Finish(inv, RunPhase(p, inv))
  {
  }

  /** The entry point keeps the phase's effects in order and adds at most
      the handler call after them. */
  lemma FinishEffect(inv: Invocation, pr: PhaseRun, i: int)
    requires 0 <= i < |Finish(inv, pr).effects|
    ensures i < |pr.effects| ==> Finish(inv, pr).effects[i] == pr.effects[i]
    ensures i >= |pr.effects| ==> i == |pr.effects| && Finish(inv, pr).effects[i].Handled?
  {
  }

  /** A phase function runs only after the descriptor gate, for the phase
      the program name selects, with the exact argument count, and it is
      the first effect of the run. */
  lemma PhaseFunctionRunsOnlyWhenDispatched(inv: Invocation, supported: set<Phase>)
    ensures var r := Dispatch(inv, supported);
            forall i :: 0 <= i < |r.effects| && r.effects[i].Invoked? ==>
              && i == 0
              && Dispatched(inv, supported, ContextPhase(r.effects[i].context))
              && |inv.argv| == Arity(ContextPhase(r.effects[i].context))
  {
    // Dafny also finds this proof unaided; the case split and per-index steps keep it cheap for the solver.
    var r := Dispatch(inv, supported);
    if ApiSupported(inv.world) && InvokedPhase(inv.argv).Some? && InvokedPhase(inv.argv).value in supported {
      var p := InvokedPhase(inv.argv).value;
      var pr := RunPhase(p, inv);
      DispatchRunsPhase(inv, supported, p);
      forall i | 0 <= i < |r.effects| && r.effects[i].Invoked?
        ensures i == 0 && ContextPhase(r.effects[i].context) == p && |inv.argv| == Arity(p)
      {
        FinishEffect(inv, pr, i);
      }
    }
  }

  /** The error handler is called at most once, as the last effect, and its
      code is the exit code. */
  lemma HandlerEndsTheRun(inv: Invocation, supported: set<Phase>)
    ensures var r := Dispatch(inv, supported);
            forall i :: 0 <= i < |r.effects| && r.effects[i].Handled? ==>
              i == |r.effects| - 1 && r.end == Exit(inv.handler(r.effects[i].error))
  {
    // Dafny also finds this proof unaided; the case split and per-index steps keep it cheap for the solver.
    var r := Dispatch(inv, supported);
    if ApiSupported(inv.world) && InvokedPhase(inv.argv).Some? && InvokedPhase(inv.argv).value in supported {
      var p := InvokedPhase(inv.argv).value;
      var pr := RunPhase(p, inv);
      DispatchRunsPhase(inv, supported, p);
      forall i | 0 <= i < |r.effects| && r.effects[i].Handled?
        ensures i == |r.effects| - 1 && r.end == Exit(inv.handler(r.effects[i].error))
      {
        FinishEffect(inv, pr, i);
      }
    }
  }

  /** Without the handler, the process ends only with the protocol's fixed
      codes or by returning normally. */
  lemma ExitCodesWithoutHandler(inv: Invocation, supported: set<Phase>)
    ensures var r := Dispatch(inv, supported);
            (forall i :: 0 <= i < |r.effects| ==> !r.effects[i].Handled?) ==>
              r.end in {Return, Exit(0), Exit(1), Exit(100), Exit(254), Exit(255)}
  {
    var r := Dispatch(inv, supported);
    if ApiSupported(inv.world) && InvokedPhase(inv.argv).Some? && InvokedPhase(inv.argv).value in supported {
      var pr := RunPhase(InvokedPhase(inv.argv).value, inv);
      assert r == Finish(inv, pr);
      match pr.end
      case Exited(code) =>
        assert code in {0, 1, 100};
        assert r.end == Exit(code);
      case Completed(Ok(_)) =>
      case Completed(Err(e)) =>
        assert r.effects[|r.effects| - 1] == Handled(e);
    } else if !DescriptorReadable(inv.world) {
      assert r.effects[0].Handled?;
    }
  }

  /** A failing context source goes to the handler before any phase
      function runs. */
  lemma ContextFailureIsHandled(inv: Invocation, supported: set<Phase>, p: Phase)
    requires Dispatched(inv, supported, p) && |inv.argv| == Arity(p)
    requires AssembleContext(inv.world, ParseArgs(p, inv.argv).value).Err?
    ensures var e := LibError(AssembleContext(inv.world, ParseArgs(p, inv.argv).value).error);
            Dispatch(inv, supported) == Run([Handled(e)], Exit(inv.handler(e)))
  {
  }

  /** Detect: `Pass(plan)` writes the plan to the second argument and exits 0
      (a failed write goes to the handler instead); `Fail` exits 100 without
      writing; an error goes to the handler. */
  lemma DetectOutcomes(inv: Invocation, supported: set<Phase>)
    requires Dispatched(inv, supported, Detect) && |inv.argv| == Arity(Detect)
    requires AssembleContext(inv.world, DetectArgs(inv.argv[1], inv.argv[2])).Ok?
    ensures var c := AssembleContext(inv.world, DetectArgs(inv.argv[1], inv.argv[2])).value;
            var r := Dispatch(inv, supported);
            && (inv.detectFn(c).Ok? && inv.detectFn(c).value.Pass? && inv.argv[2] in inv.world.writable ==>
                  r == Run([Invoked(c), WroteBuildPlan(inv.argv[2], inv.detectFn(c).value.plan)], Exit(0)))
            && (inv.detectFn(c).Ok? && inv.detectFn(c).value.Pass? && inv.argv[2] !in inv.world.writable ==>
                  r == Run([Invoked(c), Handled(LibError(CannotWriteBuildPlan))],
                           Exit(inv.handler(LibError(CannotWriteBuildPlan)))))
            && (inv.detectFn(c) == Ok(Fail) ==> r == Run([Invoked(c)], Exit(100)))
            && (inv.detectFn(c).Err? ==>
                  r == Run([Invoked(c), Handled(inv.detectFn(c).error)],
                           Exit(inv.handler(inv.detectFn(c).error))))
  {
  }

  /** Test: both outcomes write their results to the working directory and
      print the summary; then a pass exits 0 and a failure exits 1. A failed
      write or an error goes to the handler. */
  lemma TestOutcomes(inv: Invocation, supported: set<Phase>)
    requires Dispatched(inv, supported, Test) && |inv.argv| == Arity(Test)
    requires AssembleContext(inv.world, TestArgs(inv.argv[1], inv.argv[2])).Ok?
    ensures var c := AssembleContext(inv.world, TestArgs(inv.argv[1], inv.argv[2])).value;
            var r := Dispatch(inv, supported);
            && (inv.testFn(c).Ok? && TestResultsPath in inv.world.writable ==>
                  var results := inv.testFn(c).value.results;
                  var doc := TestModel.Serialize(results);
                  r == Run([Invoked(c),
                            TestOutput(TestModel.WroteDocument(TestResultsPath, doc)),
                            TestOutput(TestModel.PrintedSummary(results.status, doc))],
                           Exit(if inv.testFn(c).value.TestsPassed? then 0 else 1)))
            && (inv.testFn(c).Ok? && TestResultsPath !in inv.world.writable ==>
                  r == Run([Invoked(c), Handled(LibError(CannotWriteTestResults))],
                           Exit(inv.handler(LibError(CannotWriteTestResults)))))
            && (inv.testFn(c).Err? ==>
                  r == Run([Invoked(c), Handled(inv.testFn(c).error)],
                           Exit(inv.handler(inv.testFn(c).error))))
  {
  }

  /** Build and publish: success returns normally from the entry point, an
      error goes to the handler. */
  lemma BuildAndPublishOutcomes(inv: Invocation, supported: set<Phase>, p: Phase)
    requires p == Build || p == Publish
    requires Dispatched(inv, supported, p) && |inv.argv| == Arity(p)
    requires AssembleContext(inv.world, ParseArgs(p, inv.argv).value).Ok?
    ensures var c := AssembleContext(inv.world, ParseArgs(p, inv.argv).value).value;
            var result := if p == Build then inv.buildFn(c) else inv.publishFn(c);
            var r := Dispatch(inv, supported);
            && (result.Ok? ==> r == Run([Invoked(c)], Return))
            && (result.Err? ==>
                  r == Run([Invoked(c), Handled(result.error)],
                           Exit(inv.handler(result.error))))
  {
  }

  /** How each argument position feeds the context of its phase. */
  predicate FedFromArguments(w: World, argv: seq<string>, c: Context) {
    match c
    case DetectContext(_, _, platform, _, _) =>
      |argv| == 3 && argv[1] in w.platforms && platform == w.platforms[argv[1]]
    case BuildContext(layersDir, _, _, platform, plan, _, _) =>
      && |argv| == 4 && layersDir == argv[1]
      && argv[2] in w.platforms && platform == w.platforms[argv[2]]
      && argv[3] in w.plans && plan == w.plans[argv[3]]
    case TestContext(layersDir, _, _, platform, _, _) =>
      |argv| == 3 && layersDir == argv[1] && argv[2] in w.platforms && platform == w.platforms[argv[2]]
    case PublishContext(_, _, platform, _, _) =>
      |argv| == 2 && argv[1] in w.platforms && platform == w.platforms[argv[1]]
  }

  lemma PreparedContextIsFed(p: Phase, inv: Invocation)
    requires Prepare(p, inv).Ready?
    ensures FedFromArguments(inv.world, inv.argv, Prepare(p, inv).context)
  {
  }

  /** Each argument position feeds a fixed context field, and the detect
      plan is written to the second argument. */
  lemma PositionalMapping(inv: Invocation, supported: set<Phase>)
    ensures var r := Dispatch(inv, supported);
            forall i :: 0 <= i < |r.effects| && r.effects[i].Invoked? ==>
              FedFromArguments(inv.world, inv.argv, r.effects[i].context)
  {
    // Dafny also finds this proof unaided; the case split and per-index steps keep it cheap for the solver.
    var r := Dispatch(inv, supported);
    if ApiSupported(inv.world) && InvokedPhase(inv.argv).Some? && InvokedPhase(inv.argv).value in supported {
      var p := InvokedPhase(inv.argv).value;
      var pr := RunPhase(p, inv);
      DispatchRunsPhase(inv, supported, p);
      forall i | 0 <= i < |r.effects| && r.effects[i].Invoked?
        ensures FedFromArguments(inv.world, inv.argv, r.effects[i].context)
      {
        FinishEffect(inv, pr, i);
        PreparedContextIsFed(p, inv);
      }
    }
  }

  /** A detect plan is only ever written to the path given as the second argument. */
  lemma BuildPlanPathFromArguments(inv: Invocation, supported: set<Phase>)
    ensures var r := Dispatch(inv, supported);
            forall i :: 0 <= i < |r.effects| && r.effects[i].WroteBuildPlan? ==>
              |inv.argv| == 3 && r.effects[i].path == inv.argv[2]
  {
    // Dafny also finds this proof unaided; the case split and per-index steps keep it cheap for the solver.
    var r := Dispatch(inv, supported);
    if ApiSupported(inv.world) && InvokedPhase(inv.argv).Some? && InvokedPhase(inv.argv).value in supported {
      var p := InvokedPhase(inv.argv).value;
      var pr := RunPhase(p, inv);
      DispatchRunsPhase(inv, supported, p);
      forall i | 0 <= i < |r.effects| && r.effects[i].WroteBuildPlan?
        ensures |inv.argv| == 3 && r.effects[i].path == inv.argv[2]
      {
        FinishEffect(inv, pr, i);
      }
    }
  }
}
