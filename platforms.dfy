/**
 * The platform catalog of the smart_create_xcframework action: the twelve SDK
 * names it knows, their architectures, archive destinations, scheme names and
 * library identifiers, and the expansion of a requested platform list into SDKs.
 */
module Platforms {
  import opened Wrappers
  import opened Text
  import opened Accumulator

  /** The SDKs the action can archive for; the Ruby code passes them around as strings. */
  datatype Sdk =
    | CarPlayOS | CarPlayOSSimulator
    | IOS | IOSSimulator
    | IPadOS | IPadOSSimulator
    | MacOSCatalyst
    | MacOS
    | TvOS | TvOSSimulator
    | WatchOS | WatchOSSimulator

  predicate IsSimulator(sdk: Sdk)
  {
    sdk in {CarPlayOSSimulator, IOSSimulator, IPadOSSimulator, TvOSSimulator, WatchOSSimulator}
  }

  /** The name of the SDK's family: its own name without the "Simulator" suffix. */
  function FamilyName(sdk: Sdk): string
  {
    match sdk
    case CarPlayOS | CarPlayOSSimulator => "carPlayOS"
    case IOS | IOSSimulator => "iOS"
    case IPadOS | IPadOSSimulator => "iPadOS"
    case MacOSCatalyst => "macOSCatalyst"
    case MacOS => "macOS"
    case TvOS | TvOSSimulator => "tvOS"
    case WatchOS | WatchOSSimulator => "watchOS"
  }

  /** The string the source uses for an SDK: "iOS", "iOSSimulator", "macOSCatalyst", ... */
  function Name(sdk: Sdk): string
  {
    FamilyName(sdk) + (if IsSimulator(sdk) then "Simulator" else "")
  }

  /** The SDK of the same family that is not a simulator (the SDK itself when it is not one). */
  function Parent(sdk: Sdk): (r: Sdk)
    ensures !IsSimulator(r) && FamilyName(r) == FamilyName(sdk)
    ensures !IsSimulator(sdk) ==> r == sdk
  {
    match sdk
    case CarPlayOSSimulator => CarPlayOS
    case IOSSimulator => IOS
    case IPadOSSimulator => IPadOS
    case TvOSSimulator => TvOS
    case WatchOSSimulator => WatchOS
    case _ => sdk
  }

  /** The simulator SDK that `sdks` lists right after `sdk`, if it has one. */
  function SimulatorOf(sdk: Sdk): (r: Option<Sdk>)
    ensures r.Some? ==> IsSimulator(r.value) && Parent(r.value) == sdk
    ensures r.None? <==> IsSimulator(sdk) || sdk == MacOS || sdk == MacOSCatalyst
  {
    match sdk
    case CarPlayOS => Some(CarPlayOSSimulator)
    case IOS => Some(IOSSimulator)
    case IPadOS => Some(IPadOSSimulator)
    case TvOS => Some(TvOSSimulator)
    case WatchOS => Some(WatchOSSimulator)
    case _ => None
  }

  /** The names the `platforms` option accepts; any other name is rejected as a user error. */
  function RequestedPlatform(value: string): (r: Option<Sdk>)
    ensures r.Some? ==> Name(r.value) == value && !IsSimulator(r.value)
  {
    if value == "carPlayOS" then Some(CarPlayOS)
    else if value == "iOS" then Some(IOS)
    else if value == "iPadOS" then Some(IPadOS)
    else if value == "macOSCatalyst" then Some(MacOSCatalyst)
    else if value == "macOS" then Some(MacOS)
    else if value == "tvOS" then Some(TvOS)
    else if value == "watchOS" then Some(WatchOS)
    else None
  }

  /** Every SDK that is not a simulator can be requested by its name. */
  lemma RequestedPlatformComplete(sdk: Sdk)
    requires !IsSimulator(sdk)
    ensures RequestedPlatform(Name(sdk)) == Some(sdk)
  {
    assert Name(sdk) == FamilyName(sdk);
  }

  /** A simulator's name is its family's name followed by "Simulator", and only
      simulators' names end that way. */
  lemma NameShape(sdk: Sdk)
    ensures EndsWith(Name(sdk), "Simulator") <==> IsSimulator(sdk)
    ensures DeleteSuffix(Name(sdk), "Simulator") == FamilyName(sdk)
  {
    var family := FamilyName(sdk);
    assert family[|family| - 1] != 'r';
    if !IsSimulator(sdk) {
      assert Name(sdk) == family;
    }
  }

  /** Distinct SDKs have distinct names. */
  lemma NameInjective(a: Sdk, b: Sdk)
    ensures Name(a) == Name(b) ==> a == b
  {
    if Name(a) == Name(b) {
      NameShape(a);
      NameShape(b);
      RequestedPlatformComplete(Parent(a));
      RequestedPlatformComplete(Parent(b));
      if IsSimulator(a) {
        SimulatorOfParent(a);
        SimulatorOfParent(b);
      }
    }
  }

  // ---------------------------------------------------------------------------
  // Architectures and library identifiers

  /** `supported_architectures`: the architecture names listed for an SDK. */
  function SupportedArchitectures(sdk: Sdk): seq<string>
  {
    match sdk
    case CarPlayOS => ["undefined"]
    case CarPlayOSSimulator => ["undefined"]
    case IOS => ["arm64", "armv7"]
    case IOSSimulator => ["arm64", "i386", "x86_64"]
    case IPadOS => ["undefined"]
    case IPadOSSimulator => ["undefined"]
    case MacOSCatalyst => ["undefined"]
    case MacOS => ["arm64", "x86_64"]
    case TvOS => ["arm64"]
    case TvOSSimulator => ["arm64", "x86_64"]
    case WatchOS => ["arm64_32", "armv7k"]
    case WatchOSSimulator => ["arm64", "i386", "x86_64"]
  }

  /** Every SDK lists at least one architecture; no architecture name is empty, contains
      '-' or '/', or ends in 'r' (so none ends in "simulator"). */
  lemma ArchitectureFacts(sdk: Sdk)
    ensures |SupportedArchitectures(sdk)| > 0
    ensures forall a :: a in SupportedArchitectures(sdk) ==>
      |a| > 0 && a[|a| - 1] != 'r' && '-' !in a && '/' !in a
  {
  }

  /** No architecture name ends in "simulator". */
  lemma ArchitecturesNotSimulator(sdk: Sdk)
    ensures forall a :: a in SupportedArchitectures(sdk) ==> !EndsWith(a, "simulator")
  {
    ArchitectureFacts(sdk);
    forall a | a in SupportedArchitectures(sdk) ensures !EndsWith(a, "simulator") {
      NotEndsWithByLastChar(a, "simulator");
    }
  }

  /** `library_identifier`: the lower-cased name without its Simulator suffix, the
      architectures joined by '_', and "simulator" for simulator SDKs, joined by '-'. */
  function LibraryIdentifier(sdk: Sdk): string
  {
    var parts := [Some(Lower(DeleteSuffix(Name(sdk), "Simulator"))),
                  Some(Join(SupportedArchitectures(sdk), "_")),
                  if EndsWith(Name(sdk), "Simulator") then Some("simulator") else None];
    Join(Compact(parts), "-")
  }

  /** `Array#compact`: drops the `nil` entries, keeping the order of the rest. */
  function Compact(xs: seq<Option<string>>): seq<string>
  {
    if |xs| == 0 then []
    else (if xs[0].Some? then [xs[0].value] else []) + Compact(xs[1..])
  }

  lemma CompactJoin(base: string, archs: string, simulator: bool)
    ensures Join(Compact([Some(base), Some(archs), if simulator then Some("simulator") else None]), "-")
         == base + "-" + archs + (if simulator then "-simulator" else "")
  {
    var tail := if simulator then Some("simulator") else None;
    var parts := [Some(base), Some(archs), tail];
    assert parts[1..] == [Some(archs), tail] && parts[1..][1..] == [tail] && [tail][1..] == [];
    assert Compact(parts) == [base] + Compact([Some(archs), tail]);
    assert Compact([Some(archs), tail]) == [archs] + Compact([tail]);
    assert Compact([tail]) == (if simulator then ["simulator"] else []) + Compact([]);
    if simulator {
      assert Compact(parts) == [base, archs, "simulator"];
      JoinThree(base, archs, "simulator", "-");
    } else {
      assert Compact(parts) == [base, archs];
      JoinTwo(base, archs, "-");
      assert base + "-" + archs + "" == base + "-" + archs;
    }
  }

  /** The identifier is the lower-cased family name, '-', the architectures joined
      by '_', and "-simulator" exactly for simulators. */
  lemma LibraryIdentifierShape(sdk: Sdk)
    ensures LibraryIdentifier(sdk) ==
      Lower(FamilyName(sdk)) + "-" + Join(SupportedArchitectures(sdk), "_")
      + (if IsSimulator(sdk) then "-simulator" else "")
  {
    NameShape(sdk);
    CompactJoin(Lower(FamilyName(sdk)), Join(SupportedArchitectures(sdk), "_"), IsSimulator(sdk));
  }

  /** The iOS simulator's identifier. */
  lemma IOSSimulatorIdentifier()
    ensures LibraryIdentifier(IOSSimulator) == "ios-arm64_i386_x86_64-simulator"
  {
    LibraryIdentifierShape(IOSSimulator);
    assert Lower("iOS") == "ios";
    JoinThree("arm64", "i386", "x86_64", "_");
  }

  /** macOS's identifier. */
  lemma MacOSIdentifier()
    ensures LibraryIdentifier(MacOS) == "macos-arm64_x86_64"
  {
    LibraryIdentifierShape(MacOS);
    assert Lower("macOS") == "macos";
    JoinTwo("arm64", "x86_64", "_");
  }

  /** The lower-cased family name, followed by the rest of an identifier. */
  function FamilyNamed(component: string): Option<Sdk>
  {
    if component == "carplayos" then Some(CarPlayOS)
    else if component == "ios" then Some(IOS)
    else if component == "ipados" then Some(IPadOS)
    else if component == "macoscatalyst" then Some(MacOSCatalyst)
    else if component == "macos" then Some(MacOS)
    else if component == "tvos" then Some(TvOS)
    else if component == "watchos" then Some(WatchOS)
    else None
  }

  /** `FamilyNamed` reads back the lower-cased family name of every SDK. */
  lemma FamilyNamedLower(sdk: Sdk)
    ensures FamilyNamed(Lower(FamilyName(sdk))) == Some(Parent(sdk))
  {
  }

  /** A family name contains neither '-' nor '/'. */
  lemma FamilyNamedPlain(component: string)
    requires FamilyNamed(component).Some?
    ensures '-' !in component && '/' !in component
  {
  }

  /** Reads an SDK back from a library identifier: the text before the first '-' names
      the family, and a "-simulator" ending selects its simulator. */
  function SdkOfIdentifier(id: string): Option<Sdk>
  {
    match IndexOf(id, "-")
    case None => None
    case Some(i) =>
      match FamilyNamed(id[..i])
      case None => None
      case Some(family) => if EndsWith(id, "-simulator") then SimulatorOf(family) else Some(family)
  }

  lemma FirstDash(a: string, b: string)
    requires '-' !in a
    ensures IndexOf(a + "-" + b, "-") == Some(|a|)
  {
    var s := a + "-" + b;
    assert OccursAt(s, "-", |a|) by { assert s[|a|..|a| + 1] == "-"; }
    forall j | 0 <= j < |a| ensures !OccursAt(s, "-", j) {
      assert s[j] == a[j];
    }
  }

  /** The identifier of an SDK that is not a simulator ends with its last architecture,
      whose last character is not 'r'. */
  lemma IdentifierLastChar(sdk: Sdk)
    requires !IsSimulator(sdk)
    ensures var id := LibraryIdentifier(sdk); |id| > 0 && id[|id| - 1] != 'r'
  {
    LibraryIdentifierShape(sdk);
    ArchitectureFacts(sdk);
    var archs := SupportedArchitectures(sdk);
    JoinEndsWithLast(archs, "_");
    var joined := Join(archs, "_");
    var last := archs[|archs| - 1];
    assert joined[|joined| - 1] == last[|last| - 1];
    var id := LibraryIdentifier(sdk);
    assert id == Lower(FamilyName(sdk)) + "-" + joined + "";
    assert id[|id| - 1] == joined[|joined| - 1];
  }

  /** The identifier ends in "simulator" exactly when the SDK's name ends in "Simulator". */
  lemma LibraryIdentifierSimulatorSuffix(sdk: Sdk)
    ensures EndsWith(LibraryIdentifier(sdk), "simulator") <==> EndsWith(Name(sdk), "Simulator")
    ensures EndsWith(LibraryIdentifier(sdk), "-simulator") <==> IsSimulator(sdk)
  {
    NameShape(sdk);
    LibraryIdentifierShape(sdk);
    var id := LibraryIdentifier(sdk);
    if !IsSimulator(sdk) {
      IdentifierLastChar(sdk);
      NotEndsWithByLastChar(id, "simulator");
      NotEndsWithByLastChar(id, "-simulator");
    }
  }

  lemma SimulatorOfParent(sdk: Sdk)
    requires IsSimulator(sdk)
    ensures SimulatorOf(Parent(sdk)) == Some(sdk)
  {
  }

  /** The first '-' of an identifier ends the lower-cased family name. */
  lemma IdentifierFamilyPrefix(sdk: Sdk)
    ensures var id := LibraryIdentifier(sdk); var family := Lower(FamilyName(sdk));
      IndexOf(id, "-") == Some(|family|) && |family| <= |id| && id[..|family|] == family
  {
    var family := Lower(FamilyName(sdk));
    var rest := Join(SupportedArchitectures(sdk), "_") + (if IsSimulator(sdk) then "-simulator" else "");
    LibraryIdentifierShape(sdk);
    assert LibraryIdentifier(sdk) == family + "-" + rest;
    FamilyNamedLower(sdk);
    FamilyNamedPlain(family);
    FirstDash(family, rest);
  }

  /** Every identifier reads back as the SDK it was made from. */
  lemma SdkOfIdentifierRoundTrip(sdk: Sdk)
    ensures SdkOfIdentifier(LibraryIdentifier(sdk)) == Some(sdk)
  {
    var id := LibraryIdentifier(sdk);
    IdentifierFamilyPrefix(sdk);
    FamilyNamedLower(sdk);
    LibraryIdentifierSimulatorSuffix(sdk);
    if IsSimulator(sdk) {
      SimulatorOfParent(sdk);
    }
  }

  /** Distinct SDKs have distinct library identifiers. */
  lemma LibraryIdentifierInjective(a: Sdk, b: Sdk)
    ensures LibraryIdentifier(a) == LibraryIdentifier(b) ==> a == b
  {
    SdkOfIdentifierRoundTrip(a);
    SdkOfIdentifierRoundTrip(b);
  }

  /** Identifiers are single path components. */
  lemma LibraryIdentifierHasNoSlash(sdk: Sdk)
    ensures '/' !in LibraryIdentifier(sdk)
  {
    var family := Lower(FamilyName(sdk));
    var archs := Join(SupportedArchitectures(sdk), "_");
    var tail := if IsSimulator(sdk) then "-simulator" else "";
    LibraryIdentifierShape(sdk);
    FamilyNameHasNoSlash(sdk);
    ArchitecturesHaveNoSlash(sdk);
    assert '/' !in tail;
  }

  lemma FamilyNameHasNoSlash(sdk: Sdk)
    ensures '/' !in Lower(FamilyName(sdk))
  {
    FamilyNamedLower(sdk);
    FamilyNamedPlain(Lower(FamilyName(sdk)));
  }

  lemma ArchitecturesHaveNoSlash(sdk: Sdk)
    ensures '/' !in Join(SupportedArchitectures(sdk), "_")
  {
    ArchitectureFacts(sdk);
    JoinExcludes(SupportedArchitectures(sdk), "_", '/');
  }

  // ---------------------------------------------------------------------------
  // Archive destinations and scheme names

  /** `platform_destination`: the `-destination` value used to archive for an SDK. Every
      value the source spells out starts with the generic-platform prefix. */
  function PlatformDestination(sdk: Sdk): string
  {
    "generic/platform=" +
    match sdk
    case CarPlayOSSimulator => "carPlayOS Simulator"
    case IOSSimulator => "iOS Simulator"
    case IPadOSSimulator => "iPadOS Simulator"
    case MacOSCatalyst => "macOS,variant=Mac Catalyst"
    case TvOSSimulator => "tvOS Simulator"
    case WatchOSSimulator => "watchOS Simulator"
    case _ => Name(sdk)
  }

  /** A simulator is archived for the generic "<family> Simulator" platform. */
  lemma SimulatorDestination(sdk: Sdk)
    requires IsSimulator(sdk)
    ensures PlatformDestination(sdk) == "generic/platform=" + (FamilyName(sdk) + " Simulator")
  {
  }

  /** Every other SDK but Mac Catalyst is archived for the platform of its own name. */
  lemma DeviceDestination(sdk: Sdk)
    requires !IsSimulator(sdk) && sdk != MacOSCatalyst
    ensures PlatformDestination(sdk) == "generic/platform=" + Name(sdk)
  {
  }

  /** The text a scheme name template marks for substitution. */
  const Placeholder := "{{platform}}"

  /** The platform name `scheme` substitutes: simulators use their family's, Mac Catalyst "Catalyst". */
  function SchemePlatform(sdk: Sdk): string
  {
    match sdk
    case CarPlayOS | CarPlayOSSimulator => "carPlayOS"
    case IOS | IOSSimulator => "iOS"
    case IPadOS | IPadOSSimulator => "iPadOS"
    case MacOSCatalyst => "Catalyst"
    case MacOS => "macOS"
    case TvOS | TvOSSimulator => "tvOS"
    case WatchOS | WatchOSSimulator => "watchOS"
  }

  /** `scheme`: the scheme template with its first "{{platform}}" replaced by the SDK's
      platform name; later occurrences stay, and a template without one is kept as is. */
  function Scheme(template: string, sdk: Sdk): (r: string)
    ensures (forall i: nat :: !OccursAt(template, Placeholder, i)) ==> r == template
    ensures forall i: nat ::
              (OccursAt(template, Placeholder, i) &&
               forall j :: 0 <= j < i ==> !OccursAt(template, Placeholder, j)) ==>
              r == template[..i] + SchemePlatform(sdk) + template[i + |Placeholder|..]
  {
    ReplaceFirst(template, Placeholder, SchemePlatform(sdk))
  }

  /** Every SDK but Mac Catalyst substitutes its family name, so a simulator is archived
      with the same scheme as its family. */
  lemma SchemePlatformIsFamily(template: string, sdk: Sdk)
    ensures sdk != MacOSCatalyst ==> SchemePlatform(sdk) == FamilyName(sdk)
    ensures Scheme(template, sdk) == Scheme(template, Parent(sdk))
  {
    assert SchemePlatform(sdk) == SchemePlatform(Parent(sdk));
  }

  // ---------------------------------------------------------------------------
  // Expanding the requested platforms into SDKs

  /** The SDKs one requested platform contributes: itself, then its simulator if it has one. */
  function Emit(platform: Sdk): (r: seq<Sdk>)
  {
    [platform] + (match SimulatorOf(platform) case Some(s) => [s] case None => [])
  }

  /** What `sdks` returns for a list of requested platforms. */
  function Expand(platforms: seq<Sdk>): seq<Sdk>
  {
    if |platforms| == 0 then [] else Emit(platforms[0]) + Expand(platforms[1..])
  }

  /** `sdks`: every requested platform in order, each directly followed by its simulator. */
  method Sdks(platforms: seq<Sdk>) returns (sdks: seq<Sdk>)
    ensures sdks == Expand(platforms)
  {
    sdks := [];
    for i := 0 to |platforms|
      invariant sdks == Expand(platforms[..i])
    {
      var platform := platforms[i];
      sdks := sdks + [platform];
      match platform {
        case CarPlayOS => sdks := sdks + [CarPlayOSSimulator];
        case IOS => sdks := sdks + [IOSSimulator];
        case IPadOS => sdks := sdks + [IPadOSSimulator];
        case TvOS => sdks := sdks + [TvOSSimulator];
        case WatchOS => sdks := sdks + [WatchOSSimulator];
        case _ =>
      }
      ExpandAppend(platforms[..i], platform);
      assert platforms[..i + 1] == platforms[..i] + [platform];
    }
    assert platforms[..|platforms|] == platforms;
  }

  lemma {:induction false} ExpandAppend(platforms: seq<Sdk>, platform: Sdk)
    ensures Expand(platforms + [platform]) == Expand(platforms) + Emit(platform)
  {
    if |platforms| == 0 {
      assert [platform][1..] == [];
    } else {
      assert (platforms + [platform])[1..] == platforms[1..] + [platform];
      ExpandAppend(platforms[1..], platform);
    }
  }

  /** How many of the platforms have a simulator. */
  function Paired(platforms: seq<Sdk>): nat
  {
    if |platforms| == 0 then 0
    else (if SimulatorOf(platforms[0]).Some? then 1 else 0) + Paired(platforms[1..])
  }

  /** The expansion is as long as the request plus one per platform with a simulator. */
  lemma {:induction false} ExpandLength(platforms: seq<Sdk>)
    ensures |Expand(platforms)| == |platforms| + Paired(platforms)
  {
    if |platforms| > 0 {
      ExpandLength(platforms[1..]);
    }
  }

  /** The i-th requested platform sits at index i plus the number of simulators added
      before it, and its simulator, if any, right after it. */
  lemma {:induction false} ExpandPlaces(platforms: seq<Sdk>, i: nat)
    requires i < |platforms|
    ensures var k := i + Paired(platforms[..i]);
      k < |Expand(platforms)| && Expand(platforms)[k] == platforms[i] &&
      (SimulatorOf(platforms[i]).Some? ==>
         k + 1 < |Expand(platforms)| && Expand(platforms)[k + 1] == SimulatorOf(platforms[i]).value)
  {
    var expanded := Expand(platforms);
    var k := i + Paired(platforms[..i]);
    ExpandLength(platforms);
    var first := Emit(platforms[0]);
    var rest := platforms[1..];
    assert expanded == first + Expand(rest);
    if i == 0 {
      assert k == 0;
    } else {
      assert platforms[..i][1..] == rest[..i - 1];
      assert k == |first| + (i - 1) + Paired(rest[..i - 1]);
      ExpandPlaces(rest, i - 1);
    }
  }

  /** Reads the request back from an expansion: a platform followed by its own simulator
      counts once. */
  function Collapse(sdks: seq<Sdk>): seq<Sdk>
  {
    if |sdks| == 0 then []
    else if |sdks| >= 2 && SimulatorOf(sdks[0]) == Some(sdks[1]) then [sdks[0]] + Collapse(sdks[2..])
    else [sdks[0]] + Collapse(sdks[1..])
  }

  /** The expansion loses nothing and reorders nothing: collapsing it gives the request back. */
  lemma {:induction false} CollapseExpand(platforms: seq<Sdk>)
    ensures Collapse(Expand(platforms)) == platforms
  {
    if |platforms| > 0 {
      var p := platforms[0];
      var rest := Expand(platforms[1..]);
      CollapseExpand(platforms[1..]);
      assert Expand(platforms) == Emit(p) + rest;
      match SimulatorOf(p)
      case Some(s) =>
        assert Expand(platforms)[2..] == rest;
      case None =>
        assert Expand(platforms)[1..] == rest;
        if |rest| > 0 {
          assert Expand(platforms)[1] == rest[0];
        }
    }
  }

  /** Every SDK of the expansion belongs to the family of one of the requested platforms. */
  lemma {:induction false} ExpandParents(platforms: seq<Sdk>, sdk: Sdk)
    requires forall p :: p in platforms ==> !IsSimulator(p)
    requires sdk in Expand(platforms)
    ensures Parent(sdk) in platforms
  {
    var rest := platforms[1..];
    assert Expand(platforms) == Emit(platforms[0]) + Expand(rest);
    if sdk in Expand(rest) {
      assert forall p :: p in rest ==> p in platforms;
      ExpandParents(rest, sdk);
    }
  }

  /** A request that names each platform once archives each SDK once. */
  lemma {:induction false} ExpandDistinct(platforms: seq<Sdk>)
    requires Distinct(platforms) && forall p :: p in platforms ==> !IsSimulator(p)
    ensures Distinct(Expand(platforms))
  {
    if |platforms| > 0 {
      var first := platforms[0];
      var rest := platforms[1..];
      var emitted := Emit(first);
      var later := Expand(rest);
      assert forall p :: p in rest ==> p in platforms;
      assert Distinct(rest);
      ExpandDistinct(rest);
      assert first !in rest;
      forall sdk | sdk in later
        ensures sdk !in emitted
      {
        ExpandParents(rest, sdk);
      }
      assert Expand(platforms) == emitted + later;
      assert Distinct(emitted);
      DistinctConcat(emitted, later);
    }
  }
}
