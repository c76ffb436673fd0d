// `generate_xcframework_info_plist`: the Info.plist of a hand-assembled XCFramework, as a
// structured value (its XML serialisation is not modelled).
module Manifest {
  import opened Wrappers
  import opened Text
  import opened Platforms
  import opened Symbols

  /** One entry of `AvailableLibraries`; an optional key is `None` when the source leaves it out. */
  datatype Library = Library(
    bitcodeSymbolMapsPath: Option<string>,
    debugSymbolsPath: string,
    libraryIdentifier: string,
    libraryPath: string,
    supportedArchitectures: seq<string>,
    supportedPlatform: string,
    supportedPlatformVariant: Option<string>)

  /** The top-level dictionary. */
  datatype InfoPlist = InfoPlist(availableLibraries: seq<Library>, bundlePackageType: string, formatVersion: string)

  /** The library entry for one SDK and what its archive contributed. */
  function LibraryOf(sdk: Sdk, symbols: FrameworkSymbols, xcframework: string): Library
  {
    var identifier := LibraryIdentifier(sdk);
    Library(
      if |symbols.bcSymbolMaps| == 0 then None else Some("BCSymbolMaps"),
      "dSYMs",
      identifier,
      xcframework + ".framework",
      SupportedArchitectures(sdk),
      DeleteSuffix(Lower(Name(sdk)), "simulator"),
      if EndsWith(identifier, "simulator") then Some("simulator") else None)
  }

  /** The manifest: one library per accumulated SDK, in the accumulator's order. */
  function InfoPlistOf(entries: seq<(Sdk, FrameworkSymbols)>, xcframework: string): (plist: InfoPlist)
    ensures |plist.availableLibraries| == |entries|
    ensures forall i :: 0 <= i < |entries| ==>
      plist.availableLibraries[i] == LibraryOf(entries[i].0, entries[i].1, xcframework)
  {
    InfoPlist(seq(|entries|, i requires 0 <= i < |entries| => LibraryOf(entries[i].0, entries[i].1, xcframework)),
              "XFWK", "1.0")
  }

  /** `sdk.downcase.delete_suffix('simulator')` is the lower-case family name. */
  lemma SupportedPlatformIsFamily(sdk: Sdk)
    ensures DeleteSuffix(Lower(Name(sdk)), "simulator") == Lower(FamilyName(sdk))
  {
    var family := FamilyName(sdk);
    var lowered := Lower(family);
    assert family[|family| - 1] == 'S' || family[|family| - 1] == 't';
    if IsSimulator(sdk) {
      LowerAppend(family, "Simulator");
      assert Lower("Simulator") == "simulator";
      var r := DeleteSuffix(lowered + "simulator", "simulator");
      assert EndsWith(lowered + "simulator", "simulator");
      assert r == (r + "simulator")[..|r|];
    } else {
      assert lowered[|lowered| - 1] == LowerChar(family[|family| - 1]);
      NotEndsWithByLastChar(lowered, "simulator");
    }
  }

  /** What each library entry records about its SDK: symbol maps are listed exactly when some
      were kept, debug symbols always, the variant "simulator" exactly for a simulator SDK,
      and the platform is the lower-case family name. */
  lemma LibraryFacts(sdk: Sdk, symbols: FrameworkSymbols, xcframework: string)
    ensures var library := LibraryOf(sdk, symbols, xcframework);
      (library.bitcodeSymbolMapsPath.Some? <==> |symbols.bcSymbolMaps| > 0) &&
      library.debugSymbolsPath == "dSYMs" &&
      (library.supportedPlatformVariant.Some? <==> IsSimulator(sdk)) &&
      (library.supportedPlatformVariant.Some? ==> library.supportedPlatformVariant.value == "simulator") &&
      library.supportedPlatform == Lower(FamilyName(sdk)) &&
      library.libraryPath == xcframework + ".framework"
  {
    LibraryIdentifierSimulatorSuffix(sdk);
    NameShape(sdk);
    SupportedPlatformIsFamily(sdk);
  }

  /** The manifest carries the package type and format version, and its library identifiers
      follow the accumulator's order; SDKs accumulated once each get distinct identifiers. */
  lemma InfoPlistFacts(entries: seq<(Sdk, FrameworkSymbols)>, xcframework: string)
    ensures var plist := InfoPlistOf(entries, xcframework);
      plist.bundlePackageType == "XFWK" && plist.formatVersion == "1.0" &&
      (forall i :: 0 <= i < |entries| ==>
         plist.availableLibraries[i].libraryIdentifier == LibraryIdentifier(entries[i].0))
    ensures var plist := InfoPlistOf(entries, xcframework);
      (forall i, j :: 0 <= i < j < |entries| && entries[i].0 != entries[j].0 ==>
         plist.availableLibraries[i].libraryIdentifier != plist.availableLibraries[j].libraryIdentifier)
  {
    forall i, j | 0 <= i < j < |entries| && entries[i].0 != entries[j].0
      ensures LibraryIdentifier(entries[i].0) != LibraryIdentifier(entries[j].0)
    {
      LibraryIdentifierInjective(entries[i].0, entries[j].0);
    }
  }
}
