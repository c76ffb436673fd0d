// `xcode_arguments`: the build settings passed to every archive, as one space-separated string.
module Arguments {
  import opened Text

  /** The settings every archive is built with. */
  const BaseFlags: seq<string> := [
    "BITCODE_GENERATION_MODE=bitcode",
    "DEBUG_INFORMATION_FORMAT=dwarf-with-dsym",
    "ENABLE_BITCODE=YES",
    "SKIP_INSTALL=NO"
  ]

  /** Added when library evolution is enabled. */
  const LibraryEvolutionFlag := "BUILD_LIBRARY_FOR_DISTRIBUTION=YES"

  /** Added when SmartKit assertions are enabled. */
  const SkAssertFlag := "ENABLE_SK_ASSERT=\"-D ENABLE_SK_ASSERT\""

  /** The flag list `xcode_arguments` builds before joining it. */
  function XcodeFlags(libraryEvolution: bool, skAssertions: bool, xcargs: seq<string>): seq<string>
  {
    BaseFlags + (if libraryEvolution then [LibraryEvolutionFlag] else []) +
    (if skAssertions then [SkAssertFlag] else []) + xcargs
  }

  /** `xcode_arguments`: pushes the base settings, the optional flags and every extra argument
      onto a list, then joins it with spaces. */
  method XcodeArguments(libraryEvolution: bool, skAssertions: bool, xcargs: seq<string>) returns (args: string)
    ensures args == Join(XcodeFlags(libraryEvolution, skAssertions, xcargs), " ")
  {
    var flags := BaseFlags;
    if libraryEvolution {
      flags := flags + [LibraryEvolutionFlag];
    }
    if skAssertions {
      flags := flags + [SkAssertFlag];
    }
    ghost var optional := flags;
    assert optional == BaseFlags + (if libraryEvolution then [LibraryEvolutionFlag] else []) +
                       (if skAssertions then [SkAssertFlag] else []);
    for i := 0 to |xcargs|
      invariant flags == optional + xcargs[..i]
    {
      flags := flags + [xcargs[i]];
    }
    assert xcargs[..|xcargs|] == xcargs;
    args := Join(flags, " ");
  }

  /** The list starts with the four base settings, ends with the extra arguments in the order
      given, and holds each optional flag between them exactly when it is enabled. */
  lemma XcodeFlagsLayout(libraryEvolution: bool, skAssertions: bool, xcargs: seq<string>)
    ensures var flags := XcodeFlags(libraryEvolution, skAssertions, xcargs);
      var optional := (if libraryEvolution then 1 else 0) + (if skAssertions then 1 else 0);
      |flags| == 4 + optional + |xcargs| &&
      flags[..4] == BaseFlags &&
      flags[4 + optional..] == xcargs &&
      (LibraryEvolutionFlag in flags[4..4 + optional] <==> libraryEvolution) &&
      (SkAssertFlag in flags[4..4 + optional] <==> skAssertions)
  {
    var flags := XcodeFlags(libraryEvolution, skAssertions, xcargs);
    var optional := (if libraryEvolution then 1 else 0) + (if skAssertions then 1 else 0);
    assert flags[4..4 + optional] ==
      (if libraryEvolution then [LibraryEvolutionFlag] else []) + (if skAssertions then [SkAssertFlag] else []);
  }
}
