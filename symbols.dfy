// `frameworks_symbols`: what one xcarchive contributes to the XCFramework — its framework
// bundle, its dSYM and the bitcode symbol maps that belong to the module. Directory globbing
// and file reading are parameters: `glob` gives the hits of a pattern in whatever order
// `Dir.glob` returns them, `read` the contents of a file.
module Symbols {
  import opened Wrappers
  import opened Text

  /** The per-archive record: `{framework:, dsym:, bc_symbol_maps:}`. */
  datatype FrameworkSymbols = FrameworkSymbols(framework: string, dsym: Option<string>, bcSymbolMaps: seq<string>)

  /** A filesystem query, in the order the operation makes them. */
  datatype Query = Glob(pattern: string) | Read(path: string)

  function FrameworkPattern(path: string, xcframework: string): string
  {
    path + "/**/" + xcframework + ".framework"
  }

  function DsymPattern(path: string, xcframework: string): string
  {
    path + "/**/" + xcframework + ".framework.dSYM"
  }

  function SymbolMapPattern(path: string): string
  {
    path + "/**/BCSymbolMaps/*"
  }

  /** The user error raised when an archive holds no framework of that name. */
  function MissingFrameworkMessage(path: string, xcframework: string): string
  {
    "▸ No " + xcframework + ".framework found in " + path
  }

  /** The symbol a symbol map of the module contains; a missing module name reads as "". */
  function Marker(name: Option<string>): string
  {
    "__swift_FORCE_LOAD_$_swiftFoundation_$_" + name.GetOr("")
  }

  /** `Array#first`: nil for an empty list. */
  function First(hits: seq<string>): (r: Option<string>)
  {
    if |hits| == 0 then None else Some(hits[0])
  }

  /** The symbol maps kept, in the order listed: those whose contents contain the marker. */
  function Retained(maps: seq<string>, read: string -> string, marker: string): seq<string>
  {
    if |maps| == 0 then []
    else
      var last := maps[|maps| - 1];
      Retained(maps[..|maps| - 1], read, marker) + (if Contains(read(last), marker) then [last] else [])
  }

  /** One `Read` query per listed symbol map, in order. */
  function Reads(maps: seq<string>): (queries: seq<Query>)
    ensures |queries| == |maps| && forall i :: 0 <= i < |maps| ==> queries[i] == Read(maps[i])
  {
    seq(|maps|, i requires 0 <= i < |maps| => Read(maps[i]))
  }

  /** `frameworks_symbols`: the first framework hit, or a user error if there is none (raised
      before the dSYM or the symbol maps are looked up); then the first dSYM hit, and every
      symbol map that mentions the module, in glob order. */
  method FrameworksSymbols(path: string, xcframework: string, name: Option<string>,
                           glob: string -> seq<string>, read: string -> string)
    returns (r: Result<FrameworkSymbols, string>, queries: seq<Query>)
    ensures r.Failure? <==> |glob(FrameworkPattern(path, xcframework))| == 0
    ensures r.Failure? ==>
      r.error == MissingFrameworkMessage(path, xcframework) && queries == [Glob(FrameworkPattern(path, xcframework))]
    ensures r.Success? ==>
      var maps := glob(SymbolMapPattern(path));
      r.value == FrameworkSymbols(glob(FrameworkPattern(path, xcframework))[0],
                                  First(glob(DsymPattern(path, xcframework))),
                                  Retained(maps, read, Marker(name))) &&
      queries == [Glob(FrameworkPattern(path, xcframework)), Glob(DsymPattern(path, xcframework)),
                  Glob(SymbolMapPattern(path))] + Reads(maps)
  {
    var frameworks := glob(FrameworkPattern(path, xcframework));
    queries := [Glob(FrameworkPattern(path, xcframework))];
    if |frameworks| == 0 {
      return Failure(MissingFrameworkMessage(path, xcframework)), queries;
    }
    var dsyms := glob(DsymPattern(path, xcframework));
    var maps := glob(SymbolMapPattern(path));
    queries := queries + [Glob(DsymPattern(path, xcframework)), Glob(SymbolMapPattern(path))];
    ghost var listed := queries;
    var marker := Marker(name);
    var kept: seq<string> := [];
    for i := 0 to |maps|
      invariant kept == Retained(maps[..i], read, marker)
      invariant queries == listed + Reads(maps[..i])
    {
      var contents := read(maps[i]);
      queries := queries + [Read(maps[i])];
      if Contains(contents, marker) {
        kept := kept + [maps[i]];
      }
      assert maps[..i + 1][..i] == maps[..i];
    }
    assert maps[..|maps|] == maps;
    r := Success(FrameworkSymbols(frameworks[0], First(dsyms), kept));
  }

  /** A symbol map is kept exactly when it is listed and its contents mention the module. */
  lemma {:induction false} RetainedMembers(maps: seq<string>, read: string -> string, marker: string, m: string)
    ensures m in Retained(maps, read, marker) <==> m in maps && Contains(read(m), marker)
  {
    if |maps| > 0 {
      RetainedMembers(maps[..|maps| - 1], read, marker, m);
      assert maps == maps[..|maps| - 1] + [maps[|maps| - 1]];
    }
  }

  /** `sub` is `seq` with some elements dropped and the rest in their order. */
  predicate IsSubsequence<T(==)>(sub: seq<T>, s: seq<T>)
  {
    if |sub| == 0 then true
    else if |s| == 0 then false
    else if sub[|sub| - 1] == s[|s| - 1] then IsSubsequence(sub[..|sub| - 1], s[..|s| - 1])
    else IsSubsequence(sub, s[..|s| - 1])
  }

  /** A subsequence of `s` is a subsequence of `s + [x]`. */
  lemma {:induction false} SubsequenceOfLonger<T>(sub: seq<T>, s: seq<T>, x: T)
    requires IsSubsequence(sub, s)
    ensures IsSubsequence(sub, s + [x])
    decreases |s|, 1
  {
    assert (s + [x])[..|s|] == s;
    if |sub| > 0 && sub[|sub| - 1] == x {
      SubsequenceDropLast(sub, s);
    }
  }

  /** Dropping the last element of a subsequence keeps it inside the same sequence. */
  lemma {:induction false} SubsequenceDropLast<T>(sub: seq<T>, s: seq<T>)
    requires |sub| > 0 && IsSubsequence(sub, s)
    ensures IsSubsequence(sub[..|sub| - 1], s)
    decreases |s|, 0
  {
    var init := s[..|s| - 1];
    assert s == init + [s[|s| - 1]];
    if sub[|sub| - 1] != s[|s| - 1] {
      SubsequenceDropLast(sub, init);
    }
    SubsequenceOfLonger(sub[..|sub| - 1], init, s[|s| - 1]);
  }

  /** The kept symbol maps are in glob order: a subsequence of the listed ones. */
  lemma {:induction false} RetainedInOrder(maps: seq<string>, read: string -> string, marker: string)
    ensures IsSubsequence(Retained(maps, read, marker), maps)
  {
    if |maps| > 0 {
      var init := maps[..|maps| - 1];
      var last := maps[|maps| - 1];
      var kept := Retained(init, read, marker);
      RetainedInOrder(init, read, marker);
      assert maps == init + [last];
      if Contains(read(last), marker) {
        assert Retained(maps, read, marker) == kept + [last];
        assert (kept + [last])[..|kept|] == kept;
      } else {
        assert Retained(maps, read, marker) == kept;
        SubsequenceOfLonger(kept, init, last);
      }
    }
  }
}
