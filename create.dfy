// `create_xcframework`: the `xcodebuild -create-xcframework` command of the library-evolution
// strategy, built argument by argument from the accumulated frameworks and debug symbols.
module Create {
  import opened Wrappers
  import opened Text
  import opened Platforms
  import opened Symbols

  /** The arguments are joined one per line, continued with a backslash. */
  const Separator := " \\\n  "

  const Command := "xcodebuild -create-xcframework"
  const FrameworkFlag := "-framework "
  const DebugSymbolsFlag := "-debug-symbols "
  const AllowInternal := "-allow-internal-distribution"

  /** `-debug-symbols` for each symbol map, in order. */
  function SymbolMapArguments(maps: seq<string>): (args: seq<string>)
    ensures |args| == |maps| && forall i :: 0 <= i < |maps| ==> args[i] == DebugSymbolsFlag + maps[i]
  {
    seq(|maps|, i requires 0 <= i < |maps| => DebugSymbolsFlag + maps[i])
  }

  /** The debug-symbol arguments of one archive: its dSYM if it has one, then its symbol maps. */
  function DebugSymbolArguments(symbols: FrameworkSymbols): seq<string>
  {
    (match symbols.dsym case Some(dsym) => [DebugSymbolsFlag + dsym] case None => []) +
    SymbolMapArguments(symbols.bcSymbolMaps)
  }

  /** The arguments of one archive: its framework, then its debug symbols. */
  function EntryArguments(symbols: FrameworkSymbols): seq<string>
  {
    [FrameworkFlag + symbols.framework] + DebugSymbolArguments(symbols)
  }

  /** The arguments of every accumulated archive, in the accumulator's order. */
  function EntriesArguments(entries: seq<(Sdk, FrameworkSymbols)>): seq<string>
  {
    if |entries| == 0 then []
    else EntriesArguments(entries[..|entries| - 1]) + EntryArguments(entries[|entries| - 1].1)
  }

  /** The whole argument list. */
  function CreateArguments(entries: seq<(Sdk, FrameworkSymbols)>, xcframework: string): seq<string>
  {
    [Command] + EntriesArguments(entries) + [AllowInternal, "-output " + xcframework + ".xcframework"]
  }

  /** `create_xcframework`: the command line handed to the shell. */
  method CreateXcframework(entries: seq<(Sdk, FrameworkSymbols)>, xcframework: string) returns (command: string)
    ensures command == Join(CreateArguments(entries, xcframework), Separator)
  {
    var args := [Command];
    for i := 0 to |entries|
      invariant args == [Command] + EntriesArguments(entries[..i])
    {
      args := AppendEntry(args, entries[i].1);
      EntriesArgumentsStep(entries, i);
    }
    assert entries[..|entries|] == entries;
    args := args + [AllowInternal, "-output " + xcframework + ".xcframework"];
    command := Join(args, Separator);
  }

  /** The body of the loop over the accumulated archives. */
  method AppendEntry(args: seq<string>, details: FrameworkSymbols) returns (extended: seq<string>)
    ensures extended == args + EntryArguments(details)
  {
    extended := args + [FrameworkFlag + details.framework];
    if details.dsym.Some? {
      extended := extended + [DebugSymbolsFlag + details.dsym.value];
    }
    ghost var before := extended;
    var maps := details.bcSymbolMaps;
    for j := 0 to |maps|
      invariant extended == before + SymbolMapArguments(maps[..j])
    {
      extended := extended + [DebugSymbolsFlag + maps[j]];
      SymbolMapArgumentsStep(maps, j);
    }
    assert maps[..|maps|] == maps;
  }

  lemma SymbolMapArgumentsStep(maps: seq<string>, j: nat)
    requires j < |maps|
    ensures SymbolMapArguments(maps[..j + 1]) == SymbolMapArguments(maps[..j]) + [DebugSymbolsFlag + maps[j]]
  {
  }

  lemma EntriesArgumentsStep(entries: seq<(Sdk, FrameworkSymbols)>, i: nat)
    requires i < |entries|
    ensures EntriesArguments(entries[..i + 1]) == EntriesArguments(entries[..i]) + EntryArguments(entries[i].1)
  {
    assert entries[..i + 1][..i] == entries[..i];
  }

  // ---------------------------------------------------------------------------
  // Reading the argument list back

  /** The arguments that start with `prefix`, in order. */
  function Select(args: seq<string>, prefix: string): seq<string>
  {
    if |args| == 0 then []
    else Select(args[..|args| - 1], prefix) + (if StartsWith(args[|args| - 1], prefix) then [args[|args| - 1]] else [])
  }

  lemma {:induction false} SelectAppend(a: seq<string>, b: seq<string>, prefix: string)
    ensures Select(a + b, prefix) == Select(a, prefix) + Select(b, prefix)
  {
    if |b| > 0 {
      assert (a + b)[..|a + b| - 1] == a + b[..|b| - 1];
      assert (a + b)[|a + b| - 1] == b[|b| - 1];
      SelectAppend(a, b[..|b| - 1], prefix);
    } else {
      assert a + b == a;
    }
  }

  /** A list whose every element has the prefix is selected whole. */
  lemma {:induction false} SelectAll(args: seq<string>, prefix: string)
    requires forall i :: 0 <= i < |args| ==> StartsWith(args[i], prefix)
    ensures Select(args, prefix) == args
  {
    if |args| > 0 {
      SelectAll(args[..|args| - 1], prefix);
    }
  }

  /** A list none of whose elements has the prefix selects nothing. */
  lemma {:induction false} SelectNone(args: seq<string>, prefix: string)
    requires forall i :: 0 <= i < |args| ==> !StartsWith(args[i], prefix)
    ensures Select(args, prefix) == []
  {
    if |args| > 0 {
      SelectNone(args[..|args| - 1], prefix);
    }
  }

  /** Two strings that differ at the second character do not start with each other. */
  lemma FlagsDiffer(s: string, prefix: string)
    requires |s| > 1 && |prefix| > 1 && s[1] != prefix[1]
    ensures !StartsWith(s, prefix)
  {
    if |prefix| <= |s| {
      assert s[..|prefix|][1] == s[1];
    }
  }

  /** The fixed arguments are neither framework nor debug-symbol arguments. */
  lemma FixedArgumentsSelectNothing(xcframework: string)
    ensures Select([Command], FrameworkFlag) == [] && Select([Command], DebugSymbolsFlag) == []
    ensures var tail := [AllowInternal, "-output " + xcframework + ".xcframework"];
      Select(tail, FrameworkFlag) == [] && Select(tail, DebugSymbolsFlag) == []
  {
    FlagsDiffer(Command, FrameworkFlag);
    FlagsDiffer(Command, DebugSymbolsFlag);
    FlagsDiffer(AllowInternal, FrameworkFlag);
    FlagsDiffer(AllowInternal, DebugSymbolsFlag);
    FlagsDiffer("-output " + xcframework + ".xcframework", FrameworkFlag);
    FlagsDiffer("-output " + xcframework + ".xcframework", DebugSymbolsFlag);
    SelectNone([Command], FrameworkFlag);
    SelectNone([Command], DebugSymbolsFlag);
    SelectNone([AllowInternal, "-output " + xcframework + ".xcframework"], FrameworkFlag);
    SelectNone([AllowInternal, "-output " + xcframework + ".xcframework"], DebugSymbolsFlag);
  }

  /** One archive contributes exactly one framework argument and all its debug symbols. */
  lemma EntrySelections(symbols: FrameworkSymbols)
    ensures Select(EntryArguments(symbols), FrameworkFlag) == [FrameworkFlag + symbols.framework]
    ensures Select(EntryArguments(symbols), DebugSymbolsFlag) == DebugSymbolArguments(symbols)
  {
    var debug := DebugSymbolArguments(symbols);
    forall i | 0 <= i < |debug|
      ensures StartsWith(debug[i], DebugSymbolsFlag) && !StartsWith(debug[i], FrameworkFlag)
    {
      assert debug[i][..|DebugSymbolsFlag|] == DebugSymbolsFlag;
      FlagsDiffer(debug[i], FrameworkFlag);
    }
    SelectAll(debug, DebugSymbolsFlag);
    SelectNone(debug, FrameworkFlag);
    var framework := FrameworkFlag + symbols.framework;
    assert framework[..|FrameworkFlag|] == FrameworkFlag;
    FlagsDiffer(framework, DebugSymbolsFlag);
    SelectAll([framework], FrameworkFlag);
    SelectNone([framework], DebugSymbolsFlag);
    SelectAppend([framework], debug, FrameworkFlag);
    SelectAppend([framework], debug, DebugSymbolsFlag);
  }

  /** The framework argument of every archive, in the accumulator's order. */
  function FrameworkArguments(entries: seq<(Sdk, FrameworkSymbols)>): (args: seq<string>)
    ensures |args| == |entries|
  {
    if |entries| == 0 then []
    else FrameworkArguments(entries[..|entries| - 1]) + [FrameworkFlag + entries[|entries| - 1].1.framework]
  }

  /** The debug-symbol arguments of every archive, in the accumulator's order. */
  function AllDebugSymbolArguments(entries: seq<(Sdk, FrameworkSymbols)>): seq<string>
  {
    if |entries| == 0 then []
    else AllDebugSymbolArguments(entries[..|entries| - 1]) + DebugSymbolArguments(entries[|entries| - 1].1)
  }

  lemma {:induction false} EntriesSelections(entries: seq<(Sdk, FrameworkSymbols)>)
    ensures Select(EntriesArguments(entries), FrameworkFlag) == FrameworkArguments(entries)
    ensures Select(EntriesArguments(entries), DebugSymbolsFlag) == AllDebugSymbolArguments(entries)
  {
    if |entries| > 0 {
      var init := entries[..|entries| - 1];
      var last := entries[|entries| - 1].1;
      EntriesSelections(init);
      EntrySelections(last);
      SelectAppend(EntriesArguments(init), EntryArguments(last), FrameworkFlag);
      SelectAppend(EntriesArguments(init), EntryArguments(last), DebugSymbolsFlag);
    }
  }

  /** The command starts with `xcodebuild -create-xcframework` and ends with
      `-allow-internal-distribution` and the output bundle; in between, the framework
      arguments name every accumulated framework in order, and the debug-symbol arguments
      list every dSYM and kept symbol map, archive by archive. */
  lemma CreateArgumentsLayout(entries: seq<(Sdk, FrameworkSymbols)>, xcframework: string)
    ensures var args := CreateArguments(entries, xcframework);
      |args| >= 3 && args[0] == Command &&
      args[|args| - 2] == AllowInternal && args[|args| - 1] == "-output " + xcframework + ".xcframework"
    ensures Select(CreateArguments(entries, xcframework), FrameworkFlag) == FrameworkArguments(entries)
    ensures Select(CreateArguments(entries, xcframework), DebugSymbolsFlag) == AllDebugSymbolArguments(entries)
  {
    var tail := [AllowInternal, "-output " + xcframework + ".xcframework"];
    var middle := EntriesArguments(entries);
    assert CreateArguments(entries, xcframework) == [Command] + middle + tail;
    EntriesSelections(entries);
    FixedArgumentsSelectNothing(xcframework);
    SelectsAround([Command], middle, tail, FrameworkFlag);
    SelectsAround([Command], middle, tail, DebugSymbolsFlag);
  }

  /** Fixed arguments around a list select only what the list selects. */
  lemma SelectsAround(head: seq<string>, middle: seq<string>, tail: seq<string>, prefix: string)
    requires Select(head, prefix) == [] && Select(tail, prefix) == []
    ensures Select(head + middle + tail, prefix) == Select(middle, prefix)
  {
    SelectAppend(head, middle, prefix);
    SelectAppend(head + middle, tail, prefix);
  }

  /** Each archive's framework argument, indexed. */
  lemma {:induction false} FrameworkArgumentsIndexed(entries: seq<(Sdk, FrameworkSymbols)>)
    ensures forall i :: 0 <= i < |entries| ==> FrameworkArguments(entries)[i] == FrameworkFlag + entries[i].1.framework
  {
    if |entries| > 0 {
      FrameworkArgumentsIndexed(entries[..|entries| - 1]);
    }
  }
}
