# smart_create_xcframework, modelled in Dafny

This project models the fastlane action `smart_create_xcframework`. The action archives one
Xcode scheme for every SDK of the requested platforms, including each platform's simulator. It
stamps the release version and build number into every archived `Info.plist` and collects each
archive's framework, dSYM and bitcode symbol maps. It then assembles an XCFramework, either
with `xcodebuild -create-xcframework` (library evolution on) or by hand, laying out the slices
and writing the `Info.plist` manifest itself. Last, it zips the bundle.

The modules follow the action's helpers:

- `Platforms`: the SDK catalog.
  - `sdks`, which expands platforms into SDKs.
  - `library_identifier`, `supported_architectures`, `platform_destination` and `scheme`.
  - The check on the `platforms` option.
- `Semver`: the version normaliser, i.e. the regular-expression `scan` and `join`.
- `Stamping`: `set_version_and_build_number`, with its `Set`-then-`Add` fallback.
- `Symbols`: `frameworks_symbols`.
- `Arguments`: `xcode_arguments`.
- `Create`: `create_xcframework`, the library-evolution command line.
- `Bundle` and `Layout`: `generate_xcframework` over a file tree.
  - `Bundle.FileTree` is the working directory.
  - `FileTree` has methods for `mkdir_p`, `cp`/`cp_r` and `File.write`.
- `Manifest`: `generate_xcframework_info_plist`.
- `Accumulator`: the Ruby `Hash` that `run` fills.
  - `Accumulator.OrderedHash` keeps insertion order, and a repeated key keeps its place.
- `Action`: `run`, i.e. the loop over the SDKs, the choice of strategy and the zip.

Each imperative step of the source is a method proved against a specification function:

- `Platforms.Sdks` against `Expand`.
- `Stamping.SetVersionAndBuildNumber` against `Stamped`.
- `Symbols.FrameworksSymbols` against `Retained`.
- `Create.CreateXcframework` against `CreateArguments`.
- `Bundle.GenerateXcframework` against `Generated`.
- `Action.Run` against `Outcome`.

The lemmas state what those functions promise.

The outside world is a parameter, `Action.World`:

- The temporary directory.
- Whether an `xcodebuild archive` request succeeds.
- Directory globbing, in whatever order `Dir.glob` returns.
- File contents.
- Whether a shell command line succeeds.
- Whether a zip request succeeds.

A failing step is an `Action.Error`. The `Action.Report` records:

- the archive requests made;
- the accumulated entries;
- the assembly, i.e. the command line or the file tree;
- the zip request;
- the error that ended the run.

Three behaviours of the code are easy to misread:

- Version normalisation keeps build metadata. `"2.5.0-beta+001"` stays `"2.5.0-beta+001"` (`Semver.BuildMetadataKept`). The pattern's optional `(\+\S+)` group is captured and joined back.
- The fallback from `Set` to `Add` follows *any* shell failure of `Set`, not only a missing key. The source rescues every `FastlaneShellError` (`Stamping.Setting`).
- A platform name outside the catalog is rejected with the message "Please make sure the input is a directory", as the code has it (`Action.RequestedPlatforms`).

## Model

| member | source | states |
|---|---|---|
| Text.DeleteSuffix | fastlane/actions/smart_create_xcframework.rb:12 | `delete_suffix`: when the string ends with the suffix, result + suffix is the string; otherwise the string is unchanged |
| Text.IndexOfFrom | fastlane/actions/smart_create_xcframework.rb:167 | the first occurrence of a pattern at or after a position, or none anywhere after it (what `sub` replaces) |
| Text.BasenameFacts | fastlane/actions/smart_create_xcframework.rb:101-105 | the last path component: has no `/`, ends the path, and is preceded by `/` when shorter than the path |
| Text.LowerAppend | fastlane/actions/smart_create_xcframework.rb:137 | `downcase` distributes over concatenation |
| Text.JoinEndsWithLast | fastlane/actions/smart_create_xcframework.rb:72 | a joined list ends with its last element |
| Accumulator.OrderedHash.constructor | fastlane/actions/smart_create_xcframework.rb:11 | `{}`: no keys, no values |
| Accumulator.OrderedHash.Put | fastlane/actions/smart_create_xcframework.rb:33 | `hash[k] = v`: a new key goes last, an existing key keeps its place, the value is replaced |
| Accumulator.OrderedHash.Entries | fastlane/actions/smart_create_xcframework.rb:63 | `each` enumerates the pairs in key order, each with its current value |
| Accumulator.InsertionOrderKeys | fastlane/actions/smart_create_xcframework.rb:33 | the keys of a hash are exactly the keys ever put, each once |
| Accumulator.InsertionOrderOfDistinct | fastlane/actions/smart_create_xcframework.rb:33 | keys put once each are enumerated in the order they were put |
| Accumulator.InsertionOrderByFirstAssignment | fastlane/actions/smart_create_xcframework.rb:33 | one key is enumerated before another exactly when it was first put earlier |
| Accumulator.FirstIndex | fastlane/actions/smart_create_xcframework.rb:33 | the first position of a key in the put order |
| Platforms.SupportedArchitectures | fastlane/actions/smart_create_xcframework.rb:208-223 | the architecture table of `supported_architectures`, one list per SDK; `ArchitectureFacts`, `IOSSimulatorIdentifier` and `MacOSIdentifier` state its consequences |
| Platforms.LibraryIdentifier | fastlane/actions/smart_create_xcframework.rb:135-141 | `library_identifier`: the lower-cased family, the architectures joined by `_`, then `simulator` for simulators, joined by `-`; `LibraryIdentifierShape`, `SdkOfIdentifierRoundTrip` and `LibraryIdentifierInjective` state what it promises |
| Platforms.PlatformDestination | fastlane/actions/smart_create_xcframework.rb:144-154 | `platform_destination`: the five simulator cases, Mac Catalyst, and the `generic/platform=<sdk>` fallback; `SimulatorDestination` and `DeviceDestination` state it per kind of SDK |
| Platforms.SchemePlatform | fastlane/actions/smart_create_xcframework.rb:157-166 | the platform name `scheme` substitutes for each SDK; `SchemePlatformIsFamily` states it is the family name except for Catalyst |
| Platforms.Expand | fastlane/actions/smart_create_xcframework.rb:171-184 | what `sdks` returns: each platform followed by its simulator, if any; `ExpandPlaces`, `ExpandLength`, `CollapseExpand`, `ExpandParents` and `ExpandDistinct` state its properties, and `Sdks` is proved equal to it |
| Platforms.Parent | fastlane/actions/smart_create_xcframework.rb:158-166 | the device SDK of an SDK's family; a device SDK is its own |
| Platforms.SimulatorOf | fastlane/actions/smart_create_xcframework.rb:175-181 | the simulator `sdks` adds after a platform; none exactly for simulators, macOS and macOSCatalyst |
| Platforms.RequestedPlatform | fastlane/actions/smart_create_xcframework.rb:295-301 | an accepted platform name is the name of a device SDK |
| Platforms.RequestedPlatformComplete | fastlane/actions/smart_create_xcframework.rb:297 | every device SDK's name is accepted |
| Platforms.NameShape | fastlane/actions/smart_create_xcframework.rb:137-139 | a name ends with `Simulator` exactly for simulators; deleting that suffix gives the family |
| Platforms.NameInjective | fastlane/actions/smart_create_xcframework.rb:16 | distinct SDKs have distinct names |
| Platforms.ArchitectureFacts | fastlane/actions/smart_create_xcframework.rb:208-222 | helper about the table: every SDK lists at least one architecture and none has `-` or `/`; its last clause, that none ends in `r`, only serves `ArchitecturesNotSimulator` |
| Platforms.ArchitecturesNotSimulator | fastlane/actions/smart_create_xcframework.rb:122 | no architecture ends with `simulator` |
| Platforms.CompactJoin | fastlane/actions/smart_create_xcframework.rb:136-140 | `compact.join('-')` drops the nil simulator marker |
| Platforms.LibraryIdentifierShape | fastlane/actions/smart_create_xcframework.rb:135-141 | identifier = lower-cased family, `-`, architectures joined by `_`, and `-simulator` for simulators |
| Platforms.IOSSimulatorIdentifier | fastlane/actions/smart_create_xcframework.rb:135-141 | the iOS simulator's identifier is `ios-arm64_i386_x86_64-simulator` |
| Platforms.MacOSIdentifier | fastlane/actions/smart_create_xcframework.rb:135-141 | macOS's identifier is `macos-arm64_x86_64` |
| Platforms.LibraryIdentifierSimulatorSuffix | fastlane/actions/smart_create_xcframework.rb:122-124 | an identifier ends with `simulator` exactly when the SDK name ends with `Simulator` |
| Platforms.IdentifierFamilyPrefix | fastlane/actions/smart_create_xcframework.rb:137 | the first `-` of an identifier ends the lower-cased family name |
| Platforms.SdkOfIdentifierRoundTrip | fastlane/actions/smart_create_xcframework.rb:135-141 | an identifier reads back as the SDK it was made from |
| Platforms.LibraryIdentifierInjective | fastlane/actions/smart_create_xcframework.rb:99 | distinct SDKs get distinct slice directories |
| Platforms.LibraryIdentifierHasNoSlash | fastlane/actions/smart_create_xcframework.rb:99 | an identifier is a single path component |
| Platforms.SimulatorDestination | fastlane/actions/smart_create_xcframework.rb:146-151 | a simulator's destination is `generic/platform=<family> Simulator` |
| Platforms.DeviceDestination | fastlane/actions/smart_create_xcframework.rb:152 | other SDKs except Catalyst get `generic/platform=<name>` |
| Platforms.Scheme | fastlane/actions/smart_create_xcframework.rb:157-168 | `sub`: the first `{{platform}}` is replaced by the platform's scheme name; without one the template is unchanged |
| Platforms.SchemePlatformIsFamily | fastlane/actions/smart_create_xcframework.rb:158-166 | the scheme name is the family name except for Catalyst; a simulator builds its device's scheme |
| Platforms.Sdks | fastlane/actions/smart_create_xcframework.rb:171-184 | the loop yields the expansion of the platform list |
| Platforms.ExpandAppend | fastlane/actions/smart_create_xcframework.rb:173-182 | one more platform appends that platform and its simulator, if any |
| Platforms.ExpandLength | fastlane/actions/smart_create_xcframework.rb:171-184 | the expansion has one SDK per platform plus one per platform with a simulator |
| Platforms.ExpandPlaces | fastlane/actions/smart_create_xcframework.rb:174-181 | each platform appears in the expansion, immediately followed by its simulator |
| Platforms.CollapseExpand | fastlane/actions/smart_create_xcframework.rb:171-184 | dropping the added simulators gives back the platform list |
| Platforms.ExpandParents | fastlane/actions/smart_create_xcframework.rb:171-184 | every SDK of the expansion belongs to a requested platform's family |
| Platforms.ExpandDistinct | fastlane/actions/smart_create_xcframework.rb:171-184 | distinct device platforms expand to distinct SDKs |
| Semver.Normalize | fastlane/actions/smart_create_xcframework.rb:196 | `version.scan(pattern).join`; `NormalizeIsMatchedText` states it is the concatenation of the leftmost non-overlapping matches |
| Semver.RunEnd | fastlane/actions/smart_create_xcframework.rb:196 | a greedy repetition stops at the first rejected character |
| Semver.MatchAt | fastlane/actions/smart_create_xcframework.rb:196 | a match found at a position parses as the five groups |
| Semver.MatchAtLongest | fastlane/actions/smart_create_xcframework.rb:196 | whenever the pattern matches at a position, a match is found there, no shorter than any other |
| Semver.ScanFrom | fastlane/actions/smart_create_xcframework.rb:196 | every hit of the scan is a match of the pattern |
| Semver.ScanIsLeftmost | fastlane/actions/smart_create_xcframework.rb:196 | the scan is the leftmost, non-overlapping sequence of matches |
| Semver.LeftmostIsScan | fastlane/actions/smart_create_xcframework.rb:196 | the leftmost sequence of matches is unique: it is the scan |
| Semver.Groups | fastlane/actions/smart_create_xcframework.rb:196 | five groups per match, the first three always present |
| Semver.GroupsCoverMatch | fastlane/actions/smart_create_xcframework.rb:196 | joining one match's groups gives the matched text |
| Semver.JoinHitsIsMatchedText | fastlane/actions/smart_create_xcframework.rb:196 | joining every match's groups gives the matched texts concatenated |
| Semver.NormalizeIsMatchedText | fastlane/actions/smart_create_xcframework.rb:196 | the normalised version is the concatenation of the leftmost matches |
| Semver.WholeVersionKept | fastlane/actions/smart_create_xcframework.rb:196 | a version that matches as a whole is kept unchanged |
| Semver.BuildMetadataKept | fastlane/actions/smart_create_xcframework.rb:196 | `2.5.0-beta+001` is kept with its build metadata |
| Semver.TwoComponentsDropped | fastlane/actions/smart_create_xcframework.rb:196 | `10.0` normalises to the empty string |
| Semver.GluedMatches | fastlane/actions/smart_create_xcframework.rb:196 | `1.2.3 4.5.6` has a match at 0 and another at 6 |
| Semver.TwoVersionsGlued | fastlane/actions/smart_create_xcframework.rb:196 | `1.2.3 4.5.6` normalises to `1.2.34.5.6` |
| Stamping.CommandLine | fastlane/actions/smart_create_xcframework.rb:189-191 | the PlistBuddy `Set` and `Add` command lines handed to `sh` |
| Stamping.StampPath | fastlane/actions/smart_create_xcframework.rb:195-203 | one Info.plist: the version, if given, then the build number, if given, stopping at a failure; `StampPathFallsBack`, `StampPathFailure` and `StampPathWhenSetsSucceed` state its properties |
| Stamping.Stamped | fastlane/actions/smart_create_xcframework.rb:194-204 | every globbed Info.plist in order, stopping at the first failure; `StampedLands`, `StampedFallsBack`, `StampedFailure` and `StampedWhenSetsSucceed` state its properties |
| Stamping.Setting | fastlane/actions/smart_create_xcframework.rb:188-192 | `Set` always comes first; `Add` follows exactly when `Set` fails; the entry lands when either succeeds |
| Stamping.SetEntry | fastlane/actions/smart_create_xcframework.rb:188-192 | the method issues the invocations of `Setting` and reports its outcome |
| Stamping.StampInfoPlist | fastlane/actions/smart_create_xcframework.rb:195-203 | one Info.plist: the version if given, then the build number if given, stopping at a failure |
| Stamping.SetVersionAndBuildNumber | fastlane/actions/smart_create_xcframework.rb:187-205 | the loop over the globbed Info.plists issues exactly the invocations of `Stamped` |
| Stamping.StampedStep | fastlane/actions/smart_create_xcframework.rb:194-204 | one more Info.plist extends the trace by its invocations when it lands, and ends the stamp with them when it does not |
| Stamping.StampedLands | fastlane/actions/smart_create_xcframework.rb:194-204 | stamping succeeds exactly when every given entry of every Info.plist lands |
| Stamping.StampPathWhenSetsSucceed | fastlane/actions/smart_create_xcframework.rb:195-203 | when every `Set` of one Info.plist succeeds, only those `Set`s are issued |
| Stamping.StampedWhenSetsSucceed | fastlane/actions/smart_create_xcframework.rb:194-204 | when every `Set` succeeds, no `Add` is issued and stamping succeeds |
| Stamping.SettingFallsBack | fastlane/actions/smart_create_xcframework.rb:188-192 | one entry's invocations obey the fallback rule |
| Stamping.StampPathFallsBack | fastlane/actions/smart_create_xcframework.rb:195-203 | one Info.plist's invocations obey the fallback rule |
| Stamping.FallsBackConcat | fastlane/actions/smart_create_xcframework.rb:194 | the fallback rule holds across consecutive Info.plists |
| Stamping.StampedFallsBack | fastlane/actions/smart_create_xcframework.rb:187-205 | every `Add` directly follows the failed `Set` of the same entry, value and path, and every failed `Set` is followed by it |
| Stamping.StampPathFailure | fastlane/actions/smart_create_xcframework.rb:190-191 | a failing Info.plist ends with a failed `Set` and the failed `Add` after it |
| Stamping.StampedFailure | fastlane/actions/smart_create_xcframework.rb:190-191 | a failing stamp stops right after the failed `Add` of a failed `Set` |
| Symbols.Retained | fastlane/actions/smart_create_xcframework.rb:85-90 | the symbol maps whose contents contain the marker, in glob order; `RetainedMembers` and `RetainedInOrder` state it |
| Symbols.FrameworksSymbols | fastlane/actions/smart_create_xcframework.rb:78-92 | fails with the message exactly when no framework is found, and then makes no further query; otherwise takes the first framework and the first dSYM or nil, keeps the symbol maps that contain the module marker, and queries in source order |
| Symbols.RetainedMembers | fastlane/actions/smart_create_xcframework.rb:85-90 | a symbol map is kept exactly when it was globbed and its contents contain the marker |
| Symbols.RetainedInOrder | fastlane/actions/smart_create_xcframework.rb:85-90 | the kept symbol maps keep their glob order |
| Arguments.XcodeFlags | fastlane/actions/smart_create_xcframework.rb:227-235 | the flag list before joining; `XcodeFlagsLayout` states its layout |
| Arguments.XcodeArguments | fastlane/actions/smart_create_xcframework.rb:226-237 | the method yields the flags joined with spaces |
| Arguments.XcodeFlagsLayout | fastlane/actions/smart_create_xcframework.rb:227-235 | the four fixed flags, then the library-evolution and SK-assertion flags exactly when enabled, then the extra arguments in order |
| Manifest.LibraryOf | fastlane/actions/smart_create_xcframework.rb:115-124 | one `AvailableLibraries` entry; `LibraryFacts` and `SupportedPlatformIsFamily` state each field |
| Manifest.InfoPlistOf | fastlane/actions/smart_create_xcframework.rb:113-129 | one library entry per accumulated SDK, in the accumulator's order |
| Manifest.SupportedPlatformIsFamily | fastlane/actions/smart_create_xcframework.rb:121 | the supported platform is the lower-cased family name |
| Manifest.LibraryFacts | fastlane/actions/smart_create_xcframework.rb:115-124 | symbol-map path exactly when maps were kept; `dSYMs`; the `simulator` variant exactly for simulators; the family; `<name>.framework` |
| Manifest.InfoPlistFacts | fastlane/actions/smart_create_xcframework.rb:113-129 | package type `XFWK`, format version `1.0`, each entry's identifier, distinct identifiers for distinct SDKs |
| Create.EntryArguments | fastlane/actions/smart_create_xcframework.rb:64-68 | one archive's arguments: `-framework`, then `-debug-symbols` for its dSYM if any and for each kept map; `EntrySelections` states it |
| Create.CreateArguments | fastlane/actions/smart_create_xcframework.rb:62-71 | the whole argument list before joining; `CreateArgumentsLayout`, `FrameworkArguments` and `FrameworkArgumentsIndexed` state its layout |
| Create.CreateXcframework | fastlane/actions/smart_create_xcframework.rb:59-75 | the loop builds exactly the argument list of `CreateArguments`, joined by a backslash-newline |
| Create.AppendEntry | fastlane/actions/smart_create_xcframework.rb:63-69 | one archive appends its framework argument, then its dSYM and kept symbol maps as debug symbols |
| Create.FixedArgumentsSelectNothing | fastlane/actions/smart_create_xcframework.rb:62-71 | the fixed arguments are neither framework nor debug-symbol arguments |
| Create.EntrySelections | fastlane/actions/smart_create_xcframework.rb:63-69 | one archive gives one framework argument and its debug symbols |
| Create.EntriesSelections | fastlane/actions/smart_create_xcframework.rb:63-69 | all archives give their framework and debug-symbol arguments in the accumulator's order |
| Create.CreateArgumentsLayout | fastlane/actions/smart_create_xcframework.rb:62-72 | the command is first; `-allow-internal-distribution` and `-output` are last; the framework arguments name every framework in order; the debug-symbol arguments list every dSYM and kept map |
| Create.FrameworkArguments | fastlane/actions/smart_create_xcframework.rb:64 | one framework argument per archive |
| Create.FrameworkArgumentsIndexed | fastlane/actions/smart_create_xcframework.rb:64 | the i-th framework argument names the i-th archive's framework |
| Bundle.Placed | fastlane/actions/smart_create_xcframework.rb:99-105 | one iteration of `generate_xcframework` on a file tree; `PlacedEffect`, `PlacedFrame` and `PlacedGrows` state what it changes |
| Bundle.Generated | fastlane/actions/smart_create_xcframework.rb:95-107 | the tree after every accumulated SDK's iteration; `GeneratedSlice`, `GeneratedKeys` and `GeneratedRoot` state its contents |
| Bundle.FileTree.constructor | fastlane/actions/smart_create_xcframework.rb:14 | the fresh temporary directory is empty |
| Bundle.FileTree.MkdirP | fastlane/actions/smart_create_xcframework.rb:100 | every missing ancestor of the path becomes a directory; existing nodes stay |
| Bundle.FileTree.Cp | fastlane/actions/smart_create_xcframework.rb:101-105 | the source lands inside the destination when that is a directory, otherwise at it |
| Bundle.FileTree.Write | fastlane/actions/smart_create_xcframework.rb:131 | succeeds exactly when the parent is a directory and the path is not one; only then is the manifest written |
| Bundle.GenerateXcframework | fastlane/actions/smart_create_xcframework.rb:95-107 | the loop leaves exactly the tree of `Generated` |
| Layout.OwnedTransitive | fastlane/actions/smart_create_xcframework.rb:99-105 | a path under a directory under another lies under the other |
| Layout.ChildrenDisjoint | fastlane/actions/smart_create_xcframework.rb:99 | sibling slice directories share no path |
| Layout.LastNamed | fastlane/actions/smart_create_xcframework.rb:102-104 | the last copied source with a given file name, or none with it |
| Layout.TargetOwned | fastlane/actions/smart_create_xcframework.rb:101-105 | a copy lands under its destination |
| Layout.AfterCopiesGrows | fastlane/actions/smart_create_xcframework.rb:102-104 | copies remove nothing |
| Layout.AfterCopiesFrame | fastlane/actions/smart_create_xcframework.rb:102-104 | copies leave every path outside the destination as it was |
| Layout.AfterCopiesChild | fastlane/actions/smart_create_xcframework.rb:102-104 | into a directory, each file name holds the last source copied with that name |
| Layout.PlacedFrame | fastlane/actions/smart_create_xcframework.rb:98-106 | one slice's iteration changes nothing outside it except creating directories above it |
| Layout.MadeDirectories | fastlane/actions/smart_create_xcframework.rb:100 | `mkdir_p` creates the slice and both symbol directories, empty |
| Layout.FrameworkCopied | fastlane/actions/smart_create_xcframework.rb:101 | the framework goes into the slice beside the symbol directories |
| Layout.FrameworkPlaced | fastlane/actions/smart_create_xcframework.rb:101 | a file name other than the symbol directories lands in the slice without disturbing them |
| Layout.MapsCopied | fastlane/actions/smart_create_xcframework.rb:102-104 | the symbol maps go into `BCSymbolMaps` |
| Layout.DsymCopied | fastlane/actions/smart_create_xcframework.rb:105 | the dSYM goes into `dSYMs` |
| Layout.DsymCopiedUnder | fastlane/actions/smart_create_xcframework.rb:105 | copying the dSYM keeps the slice, its directories, its framework and its symbol maps, and fills `dSYMs` under the dSYM's own name only |
| Layout.DsymCopiedFrame | fastlane/actions/smart_create_xcframework.rb:105 | copying the dSYM leaves the slice's other paths as they were |
| Layout.DsymNamedLanding | fastlane/actions/smart_create_xcframework.rb:105 | under a file name, `dSYMs` holds the dSYM exactly when that is its file name |
| Layout.PlacedEffect | fastlane/actions/smart_create_xcframework.rb:99-105 | a fresh slice holds its framework, its symbol maps and its dSYM |
| Layout.KeepsOtherSlice | fastlane/actions/smart_create_xcframework.rb:98-106 | one SDK's iteration leaves another SDK's slice as it was |
| Layout.SliceKept | fastlane/actions/smart_create_xcframework.rb:98-106 | a finished slice survives the other SDKs' iterations |
| Layout.GeneratedKeys | fastlane/actions/smart_create_xcframework.rb:95-107 | every path created lies above the bundle root or under a slice |
| Layout.SliceFresh | fastlane/actions/smart_create_xcframework.rb:95-107 | an SDK not yet processed has no slice |
| Layout.GeneratedSlice | fastlane/actions/smart_create_xcframework.rb:95-107 | after the loop every accumulated SDK's slice holds its framework, symbol maps and dSYM |
| Layout.NewestSlice | fastlane/actions/smart_create_xcframework.rb:98-106 | the last SDK laid out holds its framework, symbol maps and dSYM |
| Layout.OlderSliceKept | fastlane/actions/smart_create_xcframework.rb:98-106 | an earlier SDK's finished slice survives the last iteration |
| Layout.PlacedGrows | fastlane/actions/smart_create_xcframework.rb:100 | an iteration keeps every node and creates the symbol-map directory chain |
| Layout.GeneratedRoot | fastlane/actions/smart_create_xcframework.rb:99-100 | with at least one SDK, the bundle root is a directory |
| Layout.InfoPlistDirname | fastlane/actions/smart_create_xcframework.rb:131 | the manifest sits directly in the bundle root |
| Layout.InfoPlistFree | fastlane/actions/smart_create_xcframework.rb:131 | the slices never occupy the manifest's path |
| Layout.InfoPlistWritable | fastlane/actions/smart_create_xcframework.rb:131 | the manifest can be written exactly when at least one SDK was laid out |
| Action.ArchiveRequestOf | fastlane/actions/smart_create_xcframework.rb:16-29 | the arguments handed to `XcarchiveAction.run` for one SDK; `ArchiveOne` produces it and `ArchivePathInjective` keeps the archive paths apart |
| Action.Progress | fastlane/actions/smart_create_xcframework.rb:15-34 | the loop over the SDKs up to the first failure; `ProgressFacts`, `ProgressStays` and `ArchivingCount` state its properties |
| Action.Assembled | fastlane/actions/smart_create_xcframework.rb:39-44 | the strategy branch: the `-create-xcframework` command, or the laid-out tree with the manifest written; `FinishCommand` and `FinishManual` state its outcomes |
| Action.Outcome | fastlane/actions/smart_create_xcframework.rb:10-56 | the report of the whole action; `FinishSucceeds`, `ManualStrategyNeedsPlatforms` and `CommandListsFrameworks` state its properties, and `Run` is proved equal to it |
| Action.RequestedPlatforms | fastlane/actions/smart_create_xcframework.rb:295-301 | the option is accepted exactly when every value names a device platform; the result has their SDKs in order; otherwise the message |
| Action.Latest | fastlane/actions/smart_create_xcframework.rb:33 | the accumulator holds a value for exactly the SDKs put |
| Action.ArchiveOne | fastlane/actions/smart_create_xcframework.rb:16-33 | one SDK: the archive request (path, clean, configuration, destination, project, scheme, workspace, xcargs) and its outcome |
| Action.StampAndCollectOne | fastlane/actions/smart_create_xcframework.rb:31-33 | stamping, then collecting the symbols, each failure reported as its error |
| Action.AccumulatePut | fastlane/actions/smart_create_xcframework.rb:33 | one more put extends the keys, the insertion order and the values as `Hash#[]=` does |
| Action.ProgressStays | fastlane/actions/smart_create_xcframework.rb:15-34 | once an SDK fails, later SDKs change nothing |
| Action.Accumulate | fastlane/actions/smart_create_xcframework.rb:33 | putting into the hash keeps it equal to the accumulated puts |
| Action.ArchiveAll | fastlane/actions/smart_create_xcframework.rb:15-34 | the loop makes the requests, puts and failure of `Archiving`, and the hash holds the puts |
| Action.Assemble | fastlane/actions/smart_create_xcframework.rb:39-44 | the strategy the option picks: the shell command, or the laid-out tree plus the manifest |
| Action.Run | fastlane/actions/smart_create_xcframework.rb:10-56 | the whole action yields the report of `Outcome` |
| Action.ProgressFacts | fastlane/actions/smart_create_xcframework.rb:15-34 | requests are made in SDK order up to the first failure; the puts are the successful prefix; a failure is that SDK's |
| Action.ArchivingFacts | fastlane/actions/smart_create_xcframework.rb:15-34 | the same, stated for the SDKs' archive requests and outcomes |
| Action.ArchivingCount | fastlane/actions/smart_create_xcframework.rb:15-34 | without a failure, every SDK was put |
| Action.LatestIsLastPut | fastlane/actions/smart_create_xcframework.rb:33 | the hash holds the last value put under a key |
| Action.AccumulatedOfDistinct | fastlane/actions/smart_create_xcframework.rb:33 | with no key put twice, the hash enumerates the puts in order |
| Action.EntriesFollowArchives | fastlane/actions/smart_create_xcframework.rb:33 | the entries are the SDKs archived, each once, in first-put order |
| Action.ArchivedEntries | fastlane/actions/smart_create_xcframework.rb:15-34 | distinct device platforms with no failure give one entry per SDK of the expansion, in order, with its symbols |
| Action.FinishSucceeds | fastlane/actions/smart_create_xcframework.rb:36-54 | the run succeeds exactly when the archives, the assembly and the zip succeed; zipping happens only after a successful assembly |
| Action.FinishManual | fastlane/actions/smart_create_xcframework.rb:41-43 | the manual strategy fails at `File.write` exactly when nothing was accumulated |
| Action.ManualStrategyNeedsPlatforms | fastlane/actions/smart_create_xcframework.rb:41-43 | after archiving, the manual strategy fails at writing the manifest exactly when no platform was requested |
| Action.FinishCommand | fastlane/actions/smart_create_xcframework.rb:39-40 | the library-evolution command names the accumulated frameworks in order |
| Action.CommandListsFrameworks | fastlane/actions/smart_create_xcframework.rb:39-40 | its framework arguments are the frameworks of the expansion's SDKs, in order |
| Action.ArchivePathInjective | fastlane/actions/smart_create_xcframework.rb:16 | two SDKs never share an archive path |

## Left out

- Filesystem exceptions are not modelled. `World.read` is total, so `File.read` raising on a `BCSymbolMaps` hit that is a directory or unreadable is not expressed. `FileTree.Cp` never raises ENOENT for a missing source, as `FileUtils.cp`/`cp_r` can in `generate_xcframework`.
- Terminal output (`UI.important`, `UI.message`) is not modelled. `user_error!` is modelled as an error value.
- The option checks other than `platforms` are not modelled. These are the project/workspace paths and their conflict, the configuration names and the environment variables.
- `Dir.mktmpdir` and `Dir.chdir` are modelled only as the `tmp` parameter and a tree that starts empty. Cleanup of the temporary directory is not modelled.
- Archive directories are not in the file tree. The source's slices copy from inside `tmp`, so they stay under different paths.
- `xcodebuild archive`, the zip and the shell are oracle functions. The model states which requests they receive, not what they build.
- `to_plist` is not modelled: the manifest is a record.
- Only `A`–`Z` are lower-cased, which covers every SDK name the action uses.
- Layout.GeneratedSlice: it requires distinct SDKs and framework paths whose file name is not `BCSymbolMaps` or `dSYMs`. `cp_r` merge semantics of a directory into an existing one are not modelled, and neither is `mkdir_p` failing on a path component that is a file.
- Action.ArchivedEntries: it assumes distinct device platforms. For other requests, `Action.EntriesFollowArchives` states the first-put order instead.
- Action.CommandListsFrameworks: it assumes distinct device platforms, for the same reason.
- The `:xcode_version` option is not read by `run` and is not modelled.
