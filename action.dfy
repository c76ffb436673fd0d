// `run`: the whole action. It expands the requested platforms into SDKs; for each SDK it
// archives the scheme, stamps the archive's Info.plist files and collects the framework and
// its debug symbols into an insertion-ordered accumulator; then it assembles the XCFramework
// by the strategy the options choose and zips it. What lies outside the action is a
// parameter: the temporary directory, xcodebuild's archiving, the filesystem's listings and
// contents, the shell and the zip tool.
module Action {
  import opened Wrappers
  import opened Text
  import opened Accumulator
  import opened Platforms
  import opened Arguments
  import opened Stamping
  import opened Symbols
  import opened Create
  import opened Manifest
  import opened Bundle
  import opened Layout

  /** The options of the action, once fastlane has read them. */
  datatype Params = Params(
    buildNumber: Option<string>,
    configuration: string,
    enableLibraryEvolution: bool,
    enableSkAssertions: bool,
    name: Option<string>,
    platforms: seq<Sdk>,
    project: Option<string>,
    scheme: string,
    version: Option<string>,
    workspace: Option<string>,
    xcargs: seq<string>,
    zipDestination: string)

  /** The options handed to `XcarchiveAction.run`. */
  datatype ArchiveRequest = ArchiveRequest(
    archivePath: string,
    clean: bool,
    configuration: string,
    destination: string,
    project: Option<string>,
    scheme: string,
    workspace: Option<string>,
    xcargs: string)

  /** The options handed to `ZipAction.run`. */
  datatype ZipRequest = ZipRequest(path: string, outputPath: string, verbose: bool, symlinks: bool)

  /** Everything the action asks of its surroundings; `archive`, `shell` and `zip` say whether
      the call succeeded. */
  datatype World = World(
    tmp: string,
    archive: ArchiveRequest -> bool,
    glob: string -> seq<string>,
    read: string -> string,
    shell: string -> bool,
    zip: ZipRequest -> bool)

  /** The error that ends the action. */
  datatype Error =
    | ArchiveFailed(sdk: Sdk)
    | StampFailed(sdk: Sdk)
    | MissingFramework(message: string)
    | CreateFailed(command: string)
    | WriteFailed(path: string)
    | ZipFailed

  /** What the assembly step leaves behind: the `xcodebuild -create-xcframework` command of
      the library-evolution strategy, or the working directory of the manual one. */
  datatype Assembly = Command(line: string) | Tree(nodes: map<string, Node>)

  /** The archives requested, the accumulated pairs, what was assembled and zipped, and the
      error that ended the action, if any. */
  datatype Report = Report(
    archives: seq<ArchiveRequest>,
    entries: seq<(Sdk, FrameworkSymbols)>,
    assembly: Option<Assembly>,
    zip: Option<ZipRequest>,
    error: Option<Error>)

  // ---------------------------------------------------------------------------
  // The `platforms` option

  const InvalidPlatformMessage := "Please make sure the input is a directory"

  /** The check of the `platforms` option: every value must name a platform; the first that
      does not is a user error. */
  function RequestedPlatforms(values: seq<string>): (r: Result<seq<Sdk>, string>)
    ensures r.Success? <==> forall i :: 0 <= i < |values| ==> RequestedPlatform(values[i]).Some?
    ensures r.Success? ==>
      |r.value| == |values| &&
      forall i :: 0 <= i < |values| ==> Name(r.value[i]) == values[i] && !IsSimulator(r.value[i])
    ensures r.Failure? ==> r.error == InvalidPlatformMessage
  {
    if |values| == 0 then Success([])
    else
      match RequestedPlatform(values[0])
      case None => Failure(InvalidPlatformMessage)
      case Some(platform) =>
        match RequestedPlatforms(values[1..])
        case Failure(message) => Failure(message)
        case Success(rest) => Success([platform] + rest)
  }

  // ---------------------------------------------------------------------------
  // Archiving

  /** `(params[:name] || params[:scheme]).delete_suffix('.xcframework')` */
  function XcframeworkName(params: Params): string
  {
    DeleteSuffix(params.name.GetOr(params.scheme), ".xcframework")
  }

  /** `"#{tmp}/#{sdk}/#{xcframework_name}.xcarchive"` */
  function ArchivePath(tmp: string, sdk: Sdk, xcframework: string): string
  {
    tmp + "/" + Name(sdk) + "/" + xcframework + ".xcarchive"
  }

  function ArchiveRequestOf(params: Params, tmp: string, sdk: Sdk): ArchiveRequest
  {
    ArchiveRequest(
      ArchivePath(tmp, sdk, XcframeworkName(params)),
      true,
      params.configuration,
      PlatformDestination(sdk),
      params.project,
      Scheme(params.scheme, sdk),
      params.workspace,
      Join(XcodeFlags(params.enableLibraryEvolution, params.enableSkAssertions, params.xcargs), " "))
  }

  /** What `frameworks_symbols` yields for an archive, or its user error. */
  function SymbolsOf(path: string, xcframework: string, name: Option<string>,
                     glob: string -> seq<string>, read: string -> string): Result<FrameworkSymbols, string>
  {
    var frameworks := glob(FrameworkPattern(path, xcframework));
    if |frameworks| == 0 then Failure(MissingFrameworkMessage(path, xcframework))
    else Success(FrameworkSymbols(frameworks[0], First(glob(DsymPattern(path, xcframework))),
                                  Retained(glob(SymbolMapPattern(path)), read, Marker(name))))
  }

  /** What follows a successful archive: stamp its Info.plist files, then collect its
      framework and debug symbols. */
  function StampAndCollect(params: Params, world: World, sdk: Sdk, path: string): Result<FrameworkSymbols, Error>
  {
    if !Stamped(world.glob(InfoPlistPattern(path)), params.version, params.buildNumber, world.shell).1 then
      Failure(StampFailed(sdk))
    else
      match SymbolsOf(path, XcframeworkName(params), params.name, world.glob, world.read)
      case Failure(message) => Failure(MissingFramework(message))
      case Success(symbols) => Success(symbols)
  }

  /** One iteration of the loop over the SDKs: archive, stamp, collect. */
  function ArchiveSdk(params: Params, world: World, sdk: Sdk): Result<FrameworkSymbols, Error>
  {
    var request := ArchiveRequestOf(params, world.tmp, sdk);
    if !world.archive(request) then Failure(ArchiveFailed(sdk))
    else StampAndCollect(params, world, sdk, request.archivePath)
  }

  /** One iteration of the loop over the SDKs: the SDK, what it asks xcodebuild to archive
      and what it yields. */
  datatype Step = Step(sdk: Sdk, request: ArchiveRequest, result: Result<FrameworkSymbols, Error>)

  /** Every iteration the loop over the SDKs could make. */
  function Steps(params: Params, world: World, sdks: seq<Sdk>): (steps: seq<Step>)
    ensures |steps| == |sdks|
    ensures forall i :: 0 <= i < |sdks| ==>
      steps[i] == Step(sdks[i], ArchiveRequestOf(params, world.tmp, sdks[i]), ArchiveSdk(params, world, sdks[i]))
  {
    seq(|sdks|, i requires 0 <= i < |sdks| =>
      Step(sdks[i], ArchiveRequestOf(params, world.tmp, sdks[i]), ArchiveSdk(params, world, sdks[i])))
  }

  /** The loop over the SDKs: the archives requested and the pairs put into the accumulator,
      in order, up to the first iteration that fails, and its error. */
  function Progress(steps: seq<Step>): (seq<ArchiveRequest>, seq<(Sdk, FrameworkSymbols)>, Option<Error>)
  {
    if |steps| == 0 then ([], [], None)
    else
      var (archives, puts, failure) := Progress(steps[..|steps| - 1]);
      var step := steps[|steps| - 1];
      if failure.Some? then (archives, puts, failure)
      else
        match step.result
        case Failure(e) => (archives + [step.request], puts, Some(e))
        case Success(symbols) => (archives + [step.request], puts + [(step.sdk, symbols)], None)
  }

  function Archiving(params: Params, world: World, sdks: seq<Sdk>)
    : (seq<ArchiveRequest>, seq<(Sdk, FrameworkSymbols)>, Option<Error>)
  {
    Progress(Steps(params, world, sdks))
  }

  // ---------------------------------------------------------------------------
  // The accumulator

  /** The keys assigned, in order. */
  function Keys(puts: seq<(Sdk, FrameworkSymbols)>): (keys: seq<Sdk>)
    ensures |keys| == |puts| && forall i :: 0 <= i < |puts| ==> keys[i] == puts[i].0
  {
    seq(|puts|, i requires 0 <= i < |puts| => puts[i].0)
  }

  /** The value each key holds after the puts: the last one assigned to it. */
  function Latest(puts: seq<(Sdk, FrameworkSymbols)>): (values: map<Sdk, FrameworkSymbols>)
    ensures forall k :: k in values <==> k in Keys(puts)
  {
    if |puts| == 0 then map[]
    else
      var init := puts[..|puts| - 1];
      assert Keys(puts) == Keys(init) + [puts[|puts| - 1].0];
      Latest(init)[puts[|puts| - 1].0 := puts[|puts| - 1].1]
  }

  /** The accumulator's pairs after the puts, in its insertion order. */
  function Accumulated(puts: seq<(Sdk, FrameworkSymbols)>): seq<(Sdk, FrameworkSymbols)>
  {
    InsertionOrderKeys(Keys(puts));
    EntriesOf(InsertionOrder(Keys(puts)), Latest(puts))
  }

  // ---------------------------------------------------------------------------
  // Assembling and zipping

  /** The `enable_library_evolution` branch: run the `-create-xcframework` command, or lay the
      bundle out by hand and write its Info.plist. */
  function Assembled(params: Params, world: World, entries: seq<(Sdk, FrameworkSymbols)>): (Assembly, Option<Error>)
  {
    var xcframework := XcframeworkName(params);
    if params.enableLibraryEvolution then
      var line := Join(CreateArguments(entries, xcframework), Separator);
      (Command(line), if world.shell(line) then None else Some(CreateFailed(line)))
    else
      var nodes := Generated(map[], entries, xcframework);
      var path := InfoPlistPath(xcframework);
      if CanWrite(nodes, path) then (Tree(nodes[path := Written(InfoPlistOf(entries, xcframework))]), None)
      else (Tree(nodes), Some(WriteFailed(path)))
  }

  function ZipRequestOf(params: Params): ZipRequest
  {
    ZipRequest(Root(XcframeworkName(params)), params.zipDestination, false, true)
  }

  /** What the loop over the SDKs leaves: the archive requests made, the pairs put into the
      accumulator and the failure that stopped it, if any. */
  type Archived = (seq<ArchiveRequest>, seq<(Sdk, FrameworkSymbols)>, Option<Error>)

  /** What follows the loop: assembling the accumulated archives and zipping the bundle. */
  function Finish(params: Params, world: World, archived: Archived): Report
  {
    var (archives, puts, failure) := archived;
    var entries := Accumulated(puts);
    if failure.Some? then Report(archives, entries, None, None, failure)
    else
      var (assembly, failed) := Assembled(params, world, entries);
      if failed.Some? then Report(archives, entries, Some(assembly), None, failed)
      else
        var zip := ZipRequestOf(params);
        Report(archives, entries, Some(assembly), Some(zip), if world.zip(zip) then None else Some(ZipFailed))
  }

  /** The whole action. */
  function Outcome(params: Params, world: World): Report
  {
    Finish(params, world, Archiving(params, world, Expand(params.platforms)))
  }

  // ---------------------------------------------------------------------------
  // The methods

  /** The body of the loop over the SDKs. */
  method ArchiveOne(params: Params, world: World, xcframework: string, sdk: Sdk)
    returns (request: ArchiveRequest, result: Result<FrameworkSymbols, Error>)
    requires xcframework == XcframeworkName(params)
    ensures request == ArchiveRequestOf(params, world.tmp, sdk)
    ensures result == ArchiveSdk(params, world, sdk)
  {
    var xcarchivePath := ArchivePath(world.tmp, sdk, xcframework);
    var xcargs := XcodeArguments(params.enableLibraryEvolution, params.enableSkAssertions, params.xcargs);
    request := ArchiveRequest(xcarchivePath, true, params.configuration, PlatformDestination(sdk),
                              params.project, Scheme(params.scheme, sdk), params.workspace, xcargs);
    if !world.archive(request) {
      return request, Failure(ArchiveFailed(sdk));
    }
    result := StampAndCollectOne(params, world, xcframework, sdk, xcarchivePath);
  }

  /** `set_version_and_build_number`, then `frameworks_symbols`, on an archive. */
  method StampAndCollectOne(params: Params, world: World, xcframework: string, sdk: Sdk, xcarchivePath: string)
    returns (result: Result<FrameworkSymbols, Error>)
    requires xcframework == XcframeworkName(params)
    ensures result == StampAndCollect(params, world, sdk, xcarchivePath)
  {
    var issued, stamped := SetVersionAndBuildNumber(xcarchivePath, params.version, params.buildNumber,
                                                    world.glob, world.shell);
    if !stamped {
      return Failure(StampFailed(sdk));
    }
    var found, queries := FrameworksSymbols(xcarchivePath, xcframework, params.name, world.glob, world.read);
    assert found == SymbolsOf(xcarchivePath, xcframework, params.name, world.glob, world.read);
    if found.Failure? {
      return Failure(MissingFramework(found.error));
    }
    result := Success(found.value);
  }

  /** The branch on `enable_library_evolution`. */
  method Assemble(params: Params, world: World, xcframework: string, entries: seq<(Sdk, FrameworkSymbols)>)
    returns (assembly: Assembly, failure: Option<Error>)
    requires xcframework == XcframeworkName(params)
    ensures (assembly, failure) == Assembled(params, world, entries)
  {
    if params.enableLibraryEvolution {
      var command := CreateXcframework(entries, xcframework);
      assembly := Command(command);
      failure := if world.shell(command) then None else Some(CreateFailed(command));
    } else {
      var tree := new FileTree();
      GenerateXcframework(tree, entries, xcframework);
      var path := InfoPlistPath(xcframework);
      var written := tree.Write(path, InfoPlistOf(entries, xcframework));
      assembly := Tree(tree.nodes);
      failure := if written then None else Some(WriteFailed(path));
    }
  }

  lemma AccumulatePut(puts: seq<(Sdk, FrameworkSymbols)>, put: (Sdk, FrameworkSymbols))
    ensures Keys(puts + [put]) == Keys(puts) + [put.0]
    ensures InsertionOrder(Keys(puts + [put])) ==
      if put.0 in InsertionOrder(Keys(puts)) then InsertionOrder(Keys(puts)) else InsertionOrder(Keys(puts)) + [put.0]
    ensures Latest(puts + [put]) == Latest(puts)[put.0 := put.1]
  {
    assert Keys(puts + [put]) == Keys(puts) + [put.0];
    assert (puts + [put])[..|puts|] == puts;
    assert (Keys(puts) + [put.0])[..|puts|] == Keys(puts);
  }

  lemma ProgressStep(steps: seq<Step>, i: nat)
    requires i < |steps|
    ensures Progress(steps[..i + 1]) ==
      var (archives, puts, failure) := Progress(steps[..i]);
      if failure.Some? then (archives, puts, failure)
      else
        match steps[i].result
        case Failure(e) => (archives + [steps[i].request], puts, Some(e))
        case Success(symbols) => (archives + [steps[i].request], puts + [(steps[i].sdk, symbols)], None)
  {
    assert steps[..i + 1][..i] == steps[..i];
  }

  /** Once an iteration has failed, the loop is over. */
  lemma {:induction false} ProgressStays(steps: seq<Step>, i: nat)
    requires i <= |steps| && Progress(steps[..i]).2.Some?
    ensures Progress(steps) == Progress(steps[..i])
  {
    if i == |steps| {
      assert steps[..i] == steps;
    } else {
      var init := steps[..|steps| - 1];
      assert init[..i] == steps[..i];
      ProgressStays(init, i);
    }
  }

  /** The accumulator holds what the puts left in it. */
  ghost predicate Holds(hash: OrderedHash<Sdk, FrameworkSymbols>, puts: seq<(Sdk, FrameworkSymbols)>)
    reads hash
  {
    hash.Valid() && hash.keys == InsertionOrder(Keys(puts)) && hash.values == Latest(puts)
  }

  /** `frameworks_symbols[sdk] = ...` */
  method Accumulate(hash: OrderedHash<Sdk, FrameworkSymbols>, ghost puts: seq<(Sdk, FrameworkSymbols)>,
                    sdk: Sdk, symbols: FrameworkSymbols)
    requires Holds(hash, puts)
    modifies hash
    ensures Holds(hash, puts + [(sdk, symbols)])
  {
    hash.Put(sdk, symbols);
    AccumulatePut(puts, (sdk, symbols));
  }

  /** The loop over the SDKs, filling the accumulator. */
  method ArchiveAll(params: Params, world: World, xcframework: string, sdks: seq<Sdk>,
                    hash: OrderedHash<Sdk, FrameworkSymbols>)
    returns (archives: seq<ArchiveRequest>, failure: Option<Error>)
    requires xcframework == XcframeworkName(params)
    requires Holds(hash, [])
    modifies hash
    ensures Holds(hash, Archiving(params, world, sdks).1)
    ensures (archives, failure) == (Archiving(params, world, sdks).0, Archiving(params, world, sdks).2)
  {
    ghost var steps := Steps(params, world, sdks);
    archives := [];
    ghost var puts: seq<(Sdk, FrameworkSymbols)> := [];
    for i := 0 to |sdks|
      invariant Holds(hash, puts)
      invariant Progress(steps[..i]) == (archives, puts, None)
    {
      var sdk := sdks[i];
      var request, result := ArchiveOne(params, world, xcframework, sdk);
      ProgressStep(steps, i);
      archives := archives + [request];
      if result.Failure? {
        ProgressStays(steps, i + 1);
        return archives, Some(result.error);
      }
      Accumulate(hash, puts, sdk, result.value);
      puts := puts + [(sdk, result.value)];
    }
    assert steps[..|sdks|] == steps;
    failure := None;
  }

  /** `run` */
  method Run(params: Params, world: World) returns (report: Report)
    ensures report == Outcome(params, world)
  {
    var xcframework := DeleteSuffix(params.name.GetOr(params.scheme), ".xcframework");
    var hash := new OrderedHash<Sdk, FrameworkSymbols>();
    var sdks := Sdks(params.platforms);
    var archives, failed := ArchiveAll(params, world, xcframework, sdks, hash);
    var entries := hash.Entries();
    assert entries == Accumulated(Archiving(params, world, sdks).1);
    if failed.Some? {
      return Report(archives, entries, None, None, failed);
    }
    var assembly, failure := Assemble(params, world, xcframework, entries);
    if failure.Some? {
      return Report(archives, entries, Some(assembly), None, failure);
    }
    var zip := ZipRequest(xcframework + ".xcframework", params.zipDestination, false, true);
    var zipped := world.zip(zip);
    report := Report(archives, entries, Some(assembly), Some(zip), if zipped then None else Some(ZipFailed));
  }

  // ---------------------------------------------------------------------------
  // Properties of the action

  /** The loop over the SDKs requests one archive per iteration it reaches, puts the pair of
      every iteration that succeeds, and stops at the first that fails, with its error. */
  lemma {:induction false} ProgressFacts(steps: seq<Step>)
    ensures var (archives, puts, failure) := Progress(steps);
      |puts| <= |archives| <= |steps| && |archives| == |puts| + (if failure.Some? then 1 else 0) &&
      (forall j :: 0 <= j < |archives| ==> archives[j] == steps[j].request) &&
      (forall j :: 0 <= j < |puts| ==> steps[j].result.Success? && puts[j] == (steps[j].sdk, steps[j].result.value)) &&
      (failure.None? <==> |puts| == |steps|) &&
      (failure.Some? ==> steps[|puts|].result == Failure(failure.value))
  {
    if |steps| > 0 {
      var init := steps[..|steps| - 1];
      ProgressFacts(init);
      var (archives, puts, failure) := Progress(init);
      assert forall j :: 0 <= j < |init| ==> init[j] == steps[j];
    }
  }

  /** The loop over the SDKs archives them in the order `sdks` lists them, up to the first
      that fails; the error of the action is that SDK's, and every SDK before it succeeded. */
  lemma ArchivingFacts(params: Params, world: World, sdks: seq<Sdk>)
    ensures var (archives, puts, failure) := Archiving(params, world, sdks);
      |puts| <= |archives| <= |sdks| && |archives| == |puts| + (if failure.Some? then 1 else 0) &&
      (forall j :: 0 <= j < |archives| ==> archives[j] == ArchiveRequestOf(params, world.tmp, sdks[j])) &&
      (forall j :: 0 <= j < |puts| ==>
         ArchiveSdk(params, world, sdks[j]).Success? && puts[j] == (sdks[j], ArchiveSdk(params, world, sdks[j]).value)) &&
      (failure.None? <==> |puts| == |sdks|) &&
      (failure.Some? ==> ArchiveSdk(params, world, sdks[|puts|]) == Failure(failure.value))
  {
    ProgressFacts(Steps(params, world, sdks));
  }

  /** The value the accumulator holds for a key is the last one put under it. */
  lemma {:induction false} LatestIsLastPut(puts: seq<(Sdk, FrameworkSymbols)>, j: nat)
    requires j < |puts| && forall l :: j < l < |puts| ==> puts[l].0 != puts[j].0
    ensures puts[j].0 in Latest(puts) && Latest(puts)[puts[j].0] == puts[j].1
  {
    var init := puts[..|puts| - 1];
    if j < |puts| - 1 {
      LatestIsLastPut(init, j);
    }
  }

  /** When no SDK is put twice, the accumulator holds the pairs in the order they were put. */
  lemma AccumulatedOfDistinct(puts: seq<(Sdk, FrameworkSymbols)>)
    requires Distinct(Keys(puts))
    ensures Accumulated(puts) == puts
  {
    InsertionOrderOfDistinct(Keys(puts));
    forall j | 0 <= j < |puts|
      ensures Accumulated(puts)[j] == puts[j]
    {
      LatestIsLastPut(puts, j);
    }
  }

  /** Whatever the platforms, the accumulator's SDKs are those archived, each once, in the
      order of their first archive. */
  lemma EntriesFollowArchives(params: Params, world: World)
    ensures var puts := Archiving(params, world, Expand(params.platforms)).1;
      var entries := Outcome(params, world).entries;
      |entries| == |InsertionOrder(Keys(puts))| &&
      (forall j :: 0 <= j < |entries| ==> entries[j].0 == InsertionOrder(Keys(puts))[j]) &&
      Distinct(InsertionOrder(Keys(puts))) &&
      (forall k :: k in InsertionOrder(Keys(puts)) <==> k in Keys(puts))
  {
    InsertionOrderKeys(Keys(Archiving(params, world, Expand(params.platforms)).1));
  }

  /** Each platform requested once and no simulator requested: when every archive succeeds,
      the accumulator holds one pair per SDK of the expansion, in its order, each with what
      that SDK's archive yielded. */
  lemma ArchivedEntries(params: Params, world: World)
    requires Distinct(params.platforms) && forall p :: p in params.platforms ==> !IsSimulator(p)
    ensures var sdks := Expand(params.platforms);
      var report := Outcome(params, world);
      Archiving(params, world, sdks).2.None? ==>
        |report.entries| == |sdks| &&
        forall j :: 0 <= j < |sdks| ==>
          ArchiveSdk(params, world, sdks[j]).Success? &&
          report.entries[j] == (sdks[j], ArchiveSdk(params, world, sdks[j]).value)
  {
    var sdks := Expand(params.platforms);
    var puts := Archiving(params, world, sdks).1;
    ArchivingFacts(params, world, sdks);
    if Archiving(params, world, sdks).2.None? {
      ExpandDistinct(params.platforms);
      assert Keys(puts) == sdks;
      AccumulatedOfDistinct(puts);
    }
  }

  /** What follows the loop succeeds exactly when the loop, the assembly and the zip succeed;
      it then reports the assembly and the zip of the bundle into the zip destination. A zip
      is requested only once the assembly has succeeded, and an assembly only once every
      archive has. */
  lemma FinishSucceeds(params: Params, world: World, archived: Archived)
    ensures var report := Finish(params, world, archived);
      report.error.None? <==>
        archived.2.None? && Assembled(params, world, Accumulated(archived.1)).1.None? && world.zip(ZipRequestOf(params))
    ensures var report := Finish(params, world, archived);
      report.error.None? ==>
        report.zip == Some(ZipRequest(XcframeworkName(params) + ".xcframework", params.zipDestination, false, true)) &&
        report.assembly.Some?
    ensures var report := Finish(params, world, archived);
      (report.zip.Some? ==> report.assembly.Some? && (report.error.None? || report.error == Some(ZipFailed))) &&
      (report.assembly.Some? <==> archived.2.None?)
  {
  }

  /** The manual strategy: writing `Info.plist` fails exactly when nothing was accumulated (no
      slice directory, so no bundle directory to write into). */
  lemma FinishManual(params: Params, world: World, archived: Archived)
    requires !params.enableLibraryEvolution && archived.2.None?
    ensures Finish(params, world, archived).error == Some(WriteFailed(InfoPlistPath(XcframeworkName(params)))) <==>
            |archived.1| == 0
  {
    var puts := archived.1;
    InsertionOrderKeys(Keys(puts));
    InfoPlistWritable(Accumulated(puts), XcframeworkName(params));
    if |puts| > 0 {
      assert puts[0].0 in Keys(puts);
    }
  }

  /** How many pairs the loop puts when every archive succeeds. */
  lemma ArchivingCount(params: Params, world: World, sdks: seq<Sdk>)
    ensures Archiving(params, world, sdks).2.None? ==> |Archiving(params, world, sdks).1| == |sdks|
  {
    ArchivingFacts(params, world, sdks);
  }

  /** The manual strategy: once every archive has succeeded, writing `Info.plist` fails exactly
      when no platform was requested. */
  lemma ManualStrategyNeedsPlatforms(params: Params, world: World)
    requires !params.enableLibraryEvolution
    ensures var xcframework := XcframeworkName(params);
      Archiving(params, world, Expand(params.platforms)).2.None? ==>
        (Outcome(params, world).error == Some(WriteFailed(InfoPlistPath(xcframework))) <==> |params.platforms| == 0)
  {
    var sdks := Expand(params.platforms);
    var archived := Archiving(params, world, sdks);
    if archived.2.None? {
      ArchivingCount(params, world, sdks);
      ExpandLength(params.platforms);
      FinishManual(params, world, archived);
    }
  }

  /** The library-evolution strategy: the command is built from the accumulated archives, and
      its framework arguments name their frameworks in the accumulator's order. */
  lemma FinishCommand(params: Params, world: World, archived: Archived)
    requires params.enableLibraryEvolution && archived.2.None?
    ensures var entries := Accumulated(archived.1);
      var args := CreateArguments(entries, XcframeworkName(params));
      Finish(params, world, archived).assembly == Some(Command(Join(args, Separator))) &&
      |Select(args, FrameworkFlag)| == |entries| &&
      forall j :: 0 <= j < |entries| ==> Select(args, FrameworkFlag)[j] == FrameworkFlag + entries[j].1.framework
  {
    var entries := Accumulated(archived.1);
    CreateArgumentsLayout(entries, XcframeworkName(params));
    FrameworkArgumentsIndexed(entries);
  }

  /** The library-evolution strategy, each platform requested once and no simulator requested:
      once every archive has succeeded, the command's framework arguments name the framework
      of each SDK of the expansion, in its order. */
  lemma CommandListsFrameworks(params: Params, world: World)
    requires params.enableLibraryEvolution
    requires Distinct(params.platforms) && forall p :: p in params.platforms ==> !IsSimulator(p)
    ensures var sdks := Expand(params.platforms);
      var report := Outcome(params, world);
      var args := CreateArguments(report.entries, XcframeworkName(params));
      Archiving(params, world, sdks).2.None? ==>
        report.assembly == Some(Command(Join(args, Separator))) &&
        |Select(args, FrameworkFlag)| == |sdks| &&
        forall j :: 0 <= j < |sdks| ==>
          ArchiveSdk(params, world, sdks[j]).Success? &&
          Select(args, FrameworkFlag)[j] == FrameworkFlag + ArchiveSdk(params, world, sdks[j]).value.framework
  {
    var sdks := Expand(params.platforms);
    var archived := Archiving(params, world, sdks);
    if archived.2.None? {
      ArchivedEntries(params, world);
      FinishCommand(params, world, archived);
    }
  }

  /** Two SDKs archived for the same framework never share an archive path. */
  lemma ArchivePathInjective(tmp: string, a: Sdk, b: Sdk, xcframework: string)
    ensures ArchivePath(tmp, a, xcframework) == ArchivePath(tmp, b, xcframework) ==> a == b
  {
    var tail := "/" + xcframework + ".xcarchive";
    assert ArchivePath(tmp, a, xcframework) == (tmp + "/") + Name(a) + tail;
    assert ArchivePath(tmp, b, xcframework) == (tmp + "/") + Name(b) + tail;
    CancelAround(tmp + "/", Name(a), Name(b), tail);
    NameInjective(a, b);
  }
}
