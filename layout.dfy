// What `generate_xcframework` leaves in the file tree: every slice directory gets its symbol
// directories, its framework, its symbol maps and its dSYM, and nothing outside the slices
// and the directories above them is touched.
module Layout {
  import opened Wrappers
  import opened Text
  import opened Platforms
  import opened Symbols
  import opened Bundle

  // ---------------------------------------------------------------------------
  // Paths

  lemma OwnedChild(dir: string, name: string)
    ensures Owned(Child(dir, name), dir) && |Child(dir, name)| > |dir|
  {
    assert Child(dir, name)[..|dir|] == dir;
  }

  lemma OwnedTransitive(path: string, middle: string, dir: string)
    ensures Owned(path, middle) && Owned(middle, dir) ==> Owned(path, dir)
  {
    if Owned(path, middle) && Owned(middle, dir) {
      assert path[..|dir|] == path[..|middle|][..|dir|];
    }
  }

  /** Two slices with different one-component names share no path. */
  lemma ChildrenDisjoint(dir: string, a: string, b: string, path: string)
    requires '/' !in a && '/' !in b
    ensures Owned(path, Child(dir, a)) && Owned(path, Child(dir, b)) ==> a == b
  {
    if Owned(path, Child(dir, a)) && Owned(path, Child(dir, b)) {
      var p := |dir| + 1;
      forall i | p <= i < p + |a|
        ensures path[i] == a[i - p] && path[i] != '/'
      {
        assert path[i] == Child(dir, a)[i];
      }
      forall i | p <= i < p + |b|
        ensures path[i] == b[i - p] && path[i] != '/'
      {
        assert path[i] == Child(dir, b)[i];
      }
      assert |a| == |b|;
      assert a == path[p..p + |a|] == b;
    }
  }

  lemma ChildInjective(dir: string, a: string, b: string)
    ensures Child(dir, a) == Child(dir, b) ==> a == b
  {
    assert a == Child(dir, a)[|dir| + 1..];
    assert b == Child(dir, b)[|dir| + 1..];
  }

  /** A path one level below a child is never another child. */
  lemma GrandchildNotChild(dir: string, a: string, b: string, name: string)
    requires '/' !in a && '/' !in b
    ensures Child(Child(dir, a), name) != Child(dir, b)
  {
    OwnedChild(Child(dir, a), name);
    OwnedChild(dir, a);
    ChildrenDisjoint(dir, a, b, Child(Child(dir, a), name));
    assert Child(dir, b)[..|Child(dir, b)|] == Child(dir, b);
  }

  lemma SymbolDirectoriesDiffer()
    ensures '/' !in BCSymbolMapsDir && '/' !in DsymsDir && BCSymbolMapsDir != DsymsDir
  {
  }

  lemma AncestryMember(path: string, a: string)
    requires a in Ancestry(path)
    ensures a == path || (0 < |a| < |path| && path[..|a|] == a && path[|a|] == '/')
  {
  }

  lemma AncestryOfChild(dir: string, name: string)
    requires |dir| > 0
    ensures dir in Ancestry(Child(dir, name)) && Child(dir, name) in Ancestry(Child(dir, name))
  {
    var path := Child(dir, name);
    assert path[..|dir|] == dir && path[|dir|] == '/';
  }

  /** Within a slice, `mkdir_p` of `slice/name` creates only the slice and `slice/name`. */
  lemma AncestryInside(dir: string, name: string, a: string)
    requires '/' !in name && a in Ancestry(Child(dir, name)) && Owned(a, dir)
    ensures a == dir || a == Child(dir, name)
  {
    var path := Child(dir, name);
    AncestryMember(path, a);
    forall i | |dir| < i < |path|
      ensures path[i] != '/'
    {
      assert path[i] == name[i - |dir| - 1];
    }
    assert path[..|dir|] == dir;
  }

  /** Outside a slice `root/id`, `mkdir_p` of `root/id/name` creates only `root` and the
      directories above it. */
  lemma AncestryOutside(root: string, id: string, name: string, a: string)
    requires '/' !in id && '/' !in name
    requires a in Ancestry(Child(Child(root, id), name)) && !Owned(a, Child(root, id))
    ensures |a| <= |root| && StartsWith(root, a)
  {
    var slice := Child(root, id);
    var path := Child(slice, name);
    AncestryMember(path, a);
    OwnedChild(slice, name);
    forall i | |root| < i < |slice|
      ensures path[i] != '/'
    {
      assert path[i] == slice[i] == id[i - |root| - 1];
    }
    forall i | |slice| < i < |path|
      ensures path[i] != '/'
    {
      assert path[i] == name[i - |slice| - 1];
    }
    assert path[..|slice|] == slice;
    assert path[..|root|] == root;
  }

  lemma RootInAncestry(root: string, id: string, name: string)
    requires |root| > 0
    ensures root in Ancestry(Child(Child(root, id), name))
  {
    var path := Child(Child(root, id), name);
    assert path[..|root|] == root && path[|root|] == '/';
  }

  // ---------------------------------------------------------------------------
  // Copies

  /** The last of `sources` with file name `name`: the one whose copy survives. */
  function LastNamed(sources: seq<string>, name: string): (r: Option<string>)
    ensures r.Some? ==> r.value in sources && Basename(r.value) == name
    ensures r.None? ==> forall s :: s in sources ==> Basename(s) != name
  {
    if |sources| == 0 then None
    else if Basename(sources[|sources| - 1]) == name then Some(sources[|sources| - 1])
    else
      assert sources == sources[..|sources| - 1] + [sources[|sources| - 1]];
      LastNamed(sources[..|sources| - 1], name)
  }

  /** The node a copy of the named source leaves, if any. */
  function CopyOf(source: Option<string>): Option<Node>
  {
    match source
    case Some(s) => Some(Copied(s))
    case None => None
  }

  /** The dSYM, if there is one and its file name is `name`. */
  function DsymNamed(dsym: Option<string>, name: string): Option<string>
  {
    if dsym.Some? && Basename(dsym.value) == name then dsym else None
  }

  lemma TargetOwned(nodes: map<string, Node>, source: string, dest: string)
    ensures Owned(Target(nodes, source, dest), dest)
  {
    OwnedChild(dest, Basename(source));
  }

  /** Copies remove nothing. */
  lemma {:induction false} AfterCopiesGrows(nodes: map<string, Node>, sources: seq<string>, dest: string)
    ensures nodes.Keys <= AfterCopies(nodes, sources, dest).Keys
  {
    if |sources| > 0 {
      AfterCopiesGrows(nodes, sources[..|sources| - 1], dest);
    }
  }

  /** Copies into `dest` change nothing outside it. */
  lemma {:induction false} AfterCopiesFrame(nodes: map<string, Node>, sources: seq<string>, dest: string, k: string)
    requires !Owned(k, dest)
    ensures At(AfterCopies(nodes, sources, dest), k) == At(nodes, k)
  {
    if |sources| > 0 {
      var earlier := AfterCopies(nodes, sources[..|sources| - 1], dest);
      AfterCopiesFrame(nodes, sources[..|sources| - 1], dest, k);
      TargetOwned(earlier, sources[|sources| - 1], dest);
    }
  }

  /** After copying into a directory, each file name inside it holds the last source with that
      name, or what it held before when no source has it. */
  lemma {:induction false} AfterCopiesChild(nodes: map<string, Node>, sources: seq<string>, dest: string, name: string)
    requires IsDirectory(nodes, dest)
    ensures IsDirectory(AfterCopies(nodes, sources, dest), dest)
    ensures At(AfterCopies(nodes, sources, dest), Child(dest, name)) ==
            if LastNamed(sources, name).Some? then CopyOf(LastNamed(sources, name)) else At(nodes, Child(dest, name))
  {
    if |sources| > 0 {
      var last := sources[|sources| - 1];
      AfterCopiesChild(nodes, sources[..|sources| - 1], dest, name);
      OwnedChild(dest, Basename(last));
      ChildInjective(dest, Basename(last), name);
    }
  }

  // ---------------------------------------------------------------------------
  // One slice

  /** An iteration for the slice `root/id` changes nothing outside the slice; the only paths
      it may add there are `root` and the directories above it, as directories. */
  lemma PlacedFrame(nodes: map<string, Node>, root: string, id: string, symbols: FrameworkSymbols, k: string)
    requires '/' !in id && !Owned(k, Child(root, id))
    ensures var r := Placed(nodes, Child(root, id), symbols);
      (k in nodes || |k| > |root|) ==> At(r, k) == At(nodes, k)
    ensures var r := Placed(nodes, Child(root, id), symbols);
      k in r && k !in nodes ==> StartsWith(root, k) && |k| <= |root| && r[k] == Directory
  {
    var slice := Child(root, id);
    var maps := Child(slice, BCSymbolMapsDir);
    var dsyms := Child(slice, DsymsDir);
    SymbolDirectoriesDiffer();
    var made := WithDirectories(WithDirectories(nodes, Ancestry(maps)), Ancestry(dsyms));
    if k !in nodes && k in Ancestry(maps) {
      AncestryOutside(root, id, BCSymbolMapsDir, k);
    }
    if k !in nodes && k in Ancestry(dsyms) {
      AncestryOutside(root, id, DsymsDir, k);
    }
    var framework := AfterCopy(made, symbols.framework, slice);
    TargetOwned(made, symbols.framework, slice);
    OwnedChild(slice, BCSymbolMapsDir);
    OwnedChild(slice, DsymsDir);
    OwnedTransitive(k, maps, slice);
    var copied := AfterCopies(framework, symbols.bcSymbolMaps, maps);
    AfterCopiesFrame(framework, symbols.bcSymbolMaps, maps, k);
    if symbols.dsym.Some? {
      TargetOwned(copied, symbols.dsym.value, dsyms);
      OwnedTransitive(Target(copied, symbols.dsym.value, dsyms), dsyms, slice);
    }
  }

  /** A framework whose file name is neither symbol directory's. */
  predicate Conventional(symbols: FrameworkSymbols)
  {
    Basename(symbols.framework) != BCSymbolMapsDir && Basename(symbols.framework) != DsymsDir
  }

  /** The tree after the two `mkdir_p` calls of a slice nothing has touched yet. */
  lemma MadeDirectories(nodes: map<string, Node>, slice: string, name: string)
    requires |slice| > 0 && forall k :: k in nodes ==> !Owned(k, slice)
    ensures var made := WithDirectories(WithDirectories(nodes, Ancestry(Child(slice, BCSymbolMapsDir))),
                                        Ancestry(Child(slice, DsymsDir)));
      IsDirectory(made, slice) && IsDirectory(made, Child(slice, BCSymbolMapsDir)) &&
      IsDirectory(made, Child(slice, DsymsDir)) &&
      At(made, Child(Child(slice, BCSymbolMapsDir), name)) == None &&
      At(made, Child(Child(slice, DsymsDir), name)) == None
  {
    var maps := Child(slice, BCSymbolMapsDir);
    var dsyms := Child(slice, DsymsDir);
    var mapKey := Child(maps, name);
    var dsymKey := Child(dsyms, name);
    SymbolDirectoriesDiffer();
    OwnedChild(slice, BCSymbolMapsDir);
    OwnedChild(slice, DsymsDir);
    OwnedChild(maps, name);
    OwnedChild(dsyms, name);
    OwnedTransitive(mapKey, maps, slice);
    OwnedTransitive(dsymKey, dsyms, slice);
    assert slice[..|slice|] == slice;
    AncestryOfChild(slice, BCSymbolMapsDir);
    AncestryOfChild(slice, DsymsDir);
    if mapKey in Ancestry(maps) {
      AncestryMember(maps, mapKey);
    }
    if mapKey in Ancestry(dsyms) {
      AncestryInside(slice, DsymsDir, mapKey);
      GrandchildNotChild(slice, BCSymbolMapsDir, DsymsDir, name);
    }
    if dsymKey in Ancestry(maps) {
      AncestryInside(slice, BCSymbolMapsDir, dsymKey);
      GrandchildNotChild(slice, DsymsDir, BCSymbolMapsDir, name);
    }
    if dsymKey in Ancestry(dsyms) {
      AncestryMember(dsyms, dsymKey);
    }
  }

  /** What a slice holds at the paths the lemmas below follow. */
  predicate SliceHolds(nodes: map<string, Node>, slice: string, framework: string, name: string,
                       map_: Option<Node>, dsym: Option<Node>)
  {
    IsDirectory(nodes, slice) && IsDirectory(nodes, Child(slice, BCSymbolMapsDir)) &&
    IsDirectory(nodes, Child(slice, DsymsDir)) &&
    At(nodes, Child(slice, Basename(framework))) == Some(Copied(framework)) &&
    At(nodes, Child(Child(slice, BCSymbolMapsDir), name)) == map_ &&
    At(nodes, Child(Child(slice, DsymsDir), name)) == dsym
  }

  /** The framework goes into the slice, beside the symbol directories. */
  lemma FrameworkCopied(nodes: map<string, Node>, slice: string, symbols: FrameworkSymbols, name: string)
    requires |slice| > 0 && forall k :: k in nodes ==> !Owned(k, slice)
    requires Conventional(symbols)
    ensures var made := WithDirectories(WithDirectories(nodes, Ancestry(Child(slice, BCSymbolMapsDir))),
                                        Ancestry(Child(slice, DsymsDir)));
      SliceHolds(AfterCopy(made, symbols.framework, slice), slice, symbols.framework, name, None, None)
  {
    var made := WithDirectories(WithDirectories(nodes, Ancestry(Child(slice, BCSymbolMapsDir))),
                                Ancestry(Child(slice, DsymsDir)));
    MadeDirectories(nodes, slice, name);
    assert AfterCopy(made, symbols.framework, slice) ==
           made[Child(slice, Basename(symbols.framework)) := Copied(symbols.framework)];
    BasenameFacts(symbols.framework);
    FrameworkPlaced(made, slice, Basename(symbols.framework), name, Copied(symbols.framework));
  }

  /** A node put into a slice under a file name other than the symbol directories' leaves them
      as they were. */
  lemma FrameworkPlaced(made: map<string, Node>, slice: string, frameworkName: string, name: string, node: Node)
    requires '/' !in frameworkName && frameworkName != BCSymbolMapsDir && frameworkName != DsymsDir
    requires IsDirectory(made, slice) && IsDirectory(made, Child(slice, BCSymbolMapsDir)) &&
             IsDirectory(made, Child(slice, DsymsDir)) &&
             At(made, Child(Child(slice, BCSymbolMapsDir), name)) == None &&
             At(made, Child(Child(slice, DsymsDir), name)) == None
    ensures var r := made[Child(slice, frameworkName) := node];
      IsDirectory(r, slice) && IsDirectory(r, Child(slice, BCSymbolMapsDir)) &&
      IsDirectory(r, Child(slice, DsymsDir)) && At(r, Child(slice, frameworkName)) == Some(node) &&
      At(r, Child(Child(slice, BCSymbolMapsDir), name)) == None &&
      At(r, Child(Child(slice, DsymsDir), name)) == None
  {
    OwnedChild(slice, frameworkName);
    ChildInjective(slice, frameworkName, BCSymbolMapsDir);
    ChildInjective(slice, frameworkName, DsymsDir);
    SymbolDirectoriesDiffer();
    GrandchildNotChild(slice, BCSymbolMapsDir, frameworkName, name);
    GrandchildNotChild(slice, DsymsDir, frameworkName, name);
  }

  /** Copying the symbol maps leaves the rest of the slice as it was. */
  lemma MapsCopiedFrame(nodes: map<string, Node>, slice: string, framework: string, maps: seq<string>, name: string)
    requires Basename(framework) != BCSymbolMapsDir
    ensures var r := AfterCopies(nodes, maps, Child(slice, BCSymbolMapsDir));
      At(r, slice) == At(nodes, slice) &&
      At(r, Child(slice, DsymsDir)) == At(nodes, Child(slice, DsymsDir)) &&
      At(r, Child(slice, Basename(framework))) == At(nodes, Child(slice, Basename(framework))) &&
      At(r, Child(Child(slice, DsymsDir), name)) == At(nodes, Child(Child(slice, DsymsDir), name))
  {
    var mapsDir := Child(slice, BCSymbolMapsDir);
    var dsyms := Child(slice, DsymsDir);
    var frameworkKey := Child(slice, Basename(framework));
    var dsymKey := Child(dsyms, name);
    SymbolDirectoriesDiffer();
    OwnedChild(slice, BCSymbolMapsDir);
    OwnedChild(dsyms, name);
    assert dsyms[..|dsyms|] == dsyms && frameworkKey[..|frameworkKey|] == frameworkKey;
    ChildrenDisjoint(slice, DsymsDir, BCSymbolMapsDir, dsyms);
    BasenameFacts(framework);
    ChildrenDisjoint(slice, Basename(framework), BCSymbolMapsDir, frameworkKey);
    ChildrenDisjoint(slice, DsymsDir, BCSymbolMapsDir, dsymKey);
    AfterCopiesFrame(nodes, maps, mapsDir, slice);
    AfterCopiesFrame(nodes, maps, mapsDir, dsyms);
    AfterCopiesFrame(nodes, maps, mapsDir, frameworkKey);
    AfterCopiesFrame(nodes, maps, mapsDir, dsymKey);
  }

  /** The symbol maps go into `BCSymbolMaps` and touch nothing else. */
  lemma MapsCopied(nodes: map<string, Node>, slice: string, framework: string, maps: seq<string>, name: string)
    requires Basename(framework) != BCSymbolMapsDir && SliceHolds(nodes, slice, framework, name, None, None)
    ensures SliceHolds(AfterCopies(nodes, maps, Child(slice, BCSymbolMapsDir)), slice, framework, name,
                       CopyOf(LastNamed(maps, name)), None)
  {
    AfterCopiesChild(nodes, maps, Child(slice, BCSymbolMapsDir), name);
    MapsCopiedFrame(nodes, slice, framework, maps, name);
  }

  /** A file copied into `dSYMs` lands on none of the slice's other paths. */
  lemma DsymTargetElsewhere(slice: string, frameworkName: string, dsymName: string, name: string)
    requires '/' !in frameworkName && '/' !in dsymName && frameworkName != DsymsDir
    ensures var target := Child(Child(slice, DsymsDir), dsymName);
      var maps := Child(slice, BCSymbolMapsDir);
      target != slice && target != Child(slice, DsymsDir) && target != maps &&
      target != Child(slice, frameworkName) && target != Child(maps, name)
  {
    var maps := Child(slice, BCSymbolMapsDir);
    var dsyms := Child(slice, DsymsDir);
    var target := Child(dsyms, dsymName);
    SymbolDirectoriesDiffer();
    OwnedChild(slice, DsymsDir);
    OwnedChild(dsyms, dsymName);
    OwnedChild(maps, name);
    GrandchildNotChild(slice, DsymsDir, BCSymbolMapsDir, dsymName);
    GrandchildNotChild(slice, DsymsDir, frameworkName, dsymName);
    ChildrenDisjoint(slice, DsymsDir, BCSymbolMapsDir, target);
  }

  /** Writing one node at a path other than the slice's own paths leaves them as they were. */
  lemma SliceFrame(nodes: map<string, Node>, slice: string, frameworkName: string, name: string,
                   target: string, node: Node)
    requires target != slice && target != Child(slice, DsymsDir) && target != Child(slice, BCSymbolMapsDir)
    requires target != Child(slice, frameworkName) && target != Child(Child(slice, BCSymbolMapsDir), name)
    ensures var r := nodes[target := node];
      var maps := Child(slice, BCSymbolMapsDir);
      At(r, slice) == At(nodes, slice) && At(r, maps) == At(nodes, maps) &&
      At(r, Child(slice, DsymsDir)) == At(nodes, Child(slice, DsymsDir)) &&
      At(r, Child(slice, frameworkName)) == At(nodes, Child(slice, frameworkName)) &&
      At(r, Child(maps, name)) == At(nodes, Child(maps, name))
  {
  }

  /** Copying a file into an existing `dSYMs` directory puts it under its own file name. */
  lemma DsymLanding(nodes: map<string, Node>, slice: string, dsym: string)
    requires IsDirectory(nodes, Child(slice, DsymsDir))
    ensures AfterCopy(nodes, dsym, Child(slice, DsymsDir)) ==
            nodes[Child(Child(slice, DsymsDir), Basename(dsym)) := Copied(dsym)]
  {
  }

  /** Copying the dSYM leaves the slice's other paths as they were. */
  lemma DsymCopiedFrame(nodes: map<string, Node>, slice: string, frameworkName: string, dsym: string, name: string)
    requires '/' !in frameworkName && frameworkName != DsymsDir
    requires IsDirectory(nodes, Child(slice, DsymsDir))
    ensures var r := AfterCopy(nodes, dsym, Child(slice, DsymsDir));
      var maps := Child(slice, BCSymbolMapsDir);
      At(r, slice) == At(nodes, slice) && At(r, maps) == At(nodes, maps) &&
      At(r, Child(slice, DsymsDir)) == At(nodes, Child(slice, DsymsDir)) &&
      At(r, Child(slice, frameworkName)) == At(nodes, Child(slice, frameworkName)) &&
      At(r, Child(maps, name)) == At(nodes, Child(maps, name))
  {
    DsymLanding(nodes, slice, dsym);
    var target := Child(Child(slice, DsymsDir), Basename(dsym));
    BasenameFacts(dsym);
    DsymTargetElsewhere(slice, frameworkName, Basename(dsym), name);
    SliceFrame(nodes, slice, frameworkName, name, target, Copied(dsym));
  }

  /** Under a given file name, `dSYMs` holds the dSYM exactly when that is its file name. */
  lemma DsymNamedLanding(nodes: map<string, Node>, slice: string, dsym: string, name: string)
    requires IsDirectory(nodes, Child(slice, DsymsDir))
    ensures At(AfterCopy(nodes, dsym, Child(slice, DsymsDir)), Child(Child(slice, DsymsDir), name)) ==
            if Basename(dsym) == name then Some(Copied(dsym)) else At(nodes, Child(Child(slice, DsymsDir), name))
  {
    DsymLanding(nodes, slice, dsym);
    ChildInjective(Child(slice, DsymsDir), Basename(dsym), name);
  }

  /** The dSYM goes into `dSYMs` and touches nothing else. */
  lemma DsymCopied(nodes: map<string, Node>, slice: string, framework: string, dsym: string,
                   name: string, map_: Option<Node>)
    requires Basename(framework) != DsymsDir && SliceHolds(nodes, slice, framework, name, map_, None)
    ensures SliceHolds(AfterCopy(nodes, dsym, Child(slice, DsymsDir)), slice, framework, name, map_,
                       CopyOf(DsymNamed(Some(dsym), name)))
  {
    BasenameFacts(framework);
    DsymCopiedUnder(nodes, slice, Basename(framework), Copied(framework), dsym, name, map_);
  }

  /** `DsymCopied` for a framework of a given file name already in the slice. */
  lemma DsymCopiedUnder(nodes: map<string, Node>, slice: string, frameworkName: string, framework: Node,
                        dsym: string, name: string, map_: Option<Node>)
    requires '/' !in frameworkName && frameworkName != DsymsDir
    requires IsDirectory(nodes, slice) && IsDirectory(nodes, Child(slice, BCSymbolMapsDir))
    requires IsDirectory(nodes, Child(slice, DsymsDir))
    requires At(nodes, Child(slice, frameworkName)) == Some(framework)
    requires At(nodes, Child(Child(slice, BCSymbolMapsDir), name)) == map_
    requires At(nodes, Child(Child(slice, DsymsDir), name)) == None
    ensures var r := AfterCopy(nodes, dsym, Child(slice, DsymsDir));
      IsDirectory(r, slice) && IsDirectory(r, Child(slice, BCSymbolMapsDir)) &&
      IsDirectory(r, Child(slice, DsymsDir)) &&
      At(r, Child(slice, frameworkName)) == Some(framework) &&
      At(r, Child(Child(slice, BCSymbolMapsDir), name)) == map_ &&
      At(r, Child(Child(slice, DsymsDir), name)) == (if Basename(dsym) == name then Some(Copied(dsym)) else None)
  {
    DsymCopiedFrame(nodes, slice, frameworkName, dsym, name);
    DsymNamedLanding(nodes, slice, dsym, name);
  }

  /** One iteration on a slice nothing has touched yet: the slice and both symbol directories
      are directories, the framework sits in the slice, each file name in `BCSymbolMaps` holds
      the last kept symbol map with that name (and nothing else is there), and `dSYMs` holds
      the dSYM exactly when there is one. */
  lemma PlacedEffect(nodes: map<string, Node>, slice: string, symbols: FrameworkSymbols, name: string)
    requires |slice| > 0 && forall k :: k in nodes ==> !Owned(k, slice)
    requires Conventional(symbols)
    ensures SliceHolds(Placed(nodes, slice, symbols), slice, symbols.framework, name,
                       CopyOf(LastNamed(symbols.bcSymbolMaps, name)), CopyOf(DsymNamed(symbols.dsym, name)))
  {
    var made := WithDirectories(WithDirectories(nodes, Ancestry(Child(slice, BCSymbolMapsDir))),
                                Ancestry(Child(slice, DsymsDir)));
    var framework := AfterCopy(made, symbols.framework, slice);
    FrameworkCopied(nodes, slice, symbols, name);
    var copied := AfterCopies(framework, symbols.bcSymbolMaps, Child(slice, BCSymbolMapsDir));
    MapsCopied(framework, slice, symbols.framework, symbols.bcSymbolMaps, name);
    if symbols.dsym.Some? {
      DsymCopied(copied, slice, symbols.framework, symbols.dsym.value, name, CopyOf(LastNamed(symbols.bcSymbolMaps, name)));
    }
  }

  // ---------------------------------------------------------------------------
  // The whole bundle

  /** Each SDK at most once, as the keys of the accumulator are. */
  predicate DistinctSdks(entries: seq<(Sdk, FrameworkSymbols)>)
  {
    forall i, j :: 0 <= i < j < |entries| ==> entries[i].0 != entries[j].0
  }

  /** An iteration for one slice leaves the paths of another slice as they were. */
  lemma KeepsOtherSlice(nodes: map<string, Node>, root: string, sdk: Sdk, other: Sdk, symbols: FrameworkSymbols, k: string)
    requires sdk != other && Owned(k, Child(root, LibraryIdentifier(other)))
    ensures At(Placed(nodes, Child(root, LibraryIdentifier(sdk)), symbols), k) == At(nodes, k)
  {
    LibraryIdentifierHasNoSlash(sdk);
    LibraryIdentifierHasNoSlash(other);
    LibraryIdentifierInjective(sdk, other);
    ChildrenDisjoint(root, LibraryIdentifier(other), LibraryIdentifier(sdk), k);
    OwnedChild(root, LibraryIdentifier(other));
    PlacedFrame(nodes, root, LibraryIdentifier(sdk), symbols, k);
  }

  /** What one slice holds survives the iteration of another. */
  lemma SliceKept(nodes: map<string, Node>, root: string, sdk: Sdk, other: Sdk, symbols: FrameworkSymbols,
                  framework: string, name: string, map_: Option<Node>, dsym: Option<Node>)
    requires sdk != other
    requires SliceHolds(nodes, Child(root, LibraryIdentifier(other)), framework, name, map_, dsym)
    ensures SliceHolds(Placed(nodes, Child(root, LibraryIdentifier(sdk)), symbols),
                       Child(root, LibraryIdentifier(other)), framework, name, map_, dsym)
  {
    var slice := Child(root, LibraryIdentifier(other));
    var maps := Child(slice, BCSymbolMapsDir);
    var dsyms := Child(slice, DsymsDir);
    assert slice[..|slice|] == slice;
    OwnedChild(slice, BCSymbolMapsDir);
    OwnedChild(slice, DsymsDir);
    OwnedChild(slice, Basename(framework));
    OwnedChild(maps, name);
    OwnedChild(dsyms, name);
    OwnedTransitive(Child(maps, name), maps, slice);
    OwnedTransitive(Child(dsyms, name), dsyms, slice);
    KeepsOtherSlice(nodes, root, sdk, other, symbols, slice);
    KeepsOtherSlice(nodes, root, sdk, other, symbols, maps);
    KeepsOtherSlice(nodes, root, sdk, other, symbols, dsyms);
    KeepsOtherSlice(nodes, root, sdk, other, symbols, Child(slice, Basename(framework)));
    KeepsOtherSlice(nodes, root, sdk, other, symbols, Child(maps, name));
    KeepsOtherSlice(nodes, root, sdk, other, symbols, Child(dsyms, name));
  }

  /** `generate_xcframework` touches only the slices of the accumulated SDKs, the bundle
      directory and the directories above it. */
  lemma {:induction false} GeneratedKeys(entries: seq<(Sdk, FrameworkSymbols)>, xcframework: string, k: string)
    requires k in Generated(map[], entries, xcframework)
    ensures StartsWith(Root(xcframework), k) ||
            exists i :: 0 <= i < |entries| && Owned(k, Destination(xcframework, entries[i].0))
  {
    var init := entries[..|entries| - 1];
    var last := entries[|entries| - 1];
    var earlier := Generated(map[], init, xcframework);
    if Owned(k, Destination(xcframework, last.0)) {
      assert 0 <= |entries| - 1 < |entries|;
    } else {
      LibraryIdentifierHasNoSlash(last.0);
      PlacedFrame(earlier, Root(xcframework), LibraryIdentifier(last.0), last.1, k);
      if k in earlier {
        GeneratedKeys(init, xcframework, k);
        if !StartsWith(Root(xcframework), k) {
          var i :| 0 <= i < |init| && Owned(k, Destination(xcframework, init[i].0));
          assert init[i] == entries[i];
        }
      }
    }
  }

  /** Before its own iteration, nothing lies in a slice. */
  lemma SliceFresh(entries: seq<(Sdk, FrameworkSymbols)>, xcframework: string, sdk: Sdk)
    requires forall j :: 0 <= j < |entries| ==> entries[j].0 != sdk
    ensures forall k :: k in Generated(map[], entries, xcframework) ==> !Owned(k, Destination(xcframework, sdk))
  {
    var root := Root(xcframework);
    var slice := Destination(xcframework, sdk);
    OwnedChild(root, LibraryIdentifier(sdk));
    LibraryIdentifierHasNoSlash(sdk);
    forall k | k in Generated(map[], entries, xcframework)
      ensures !Owned(k, slice)
    {
      GeneratedKeys(entries, xcframework, k);
      if !StartsWith(root, k) {
        var j :| 0 <= j < |entries| && Owned(k, Destination(xcframework, entries[j].0));
        LibraryIdentifierHasNoSlash(entries[j].0);
        LibraryIdentifierInjective(entries[j].0, sdk);
        ChildrenDisjoint(root, LibraryIdentifier(entries[j].0), LibraryIdentifier(sdk), k);
      }
    }
  }

  /** After `generate_xcframework` on an empty directory, each accumulated SDK's slice
      `<name>.xcframework/<library identifier>` holds its `BCSymbolMaps` and `dSYMs`
      directories and its framework; each file name in `BCSymbolMaps` holds the last kept
      symbol map with that name, and no other; `dSYMs` holds the dSYM exactly when there is
      one. */
  lemma {:induction false} GeneratedSlice(entries: seq<(Sdk, FrameworkSymbols)>, xcframework: string, i: nat, name: string)
    requires DistinctSdks(entries) && forall j :: 0 <= j < |entries| ==> Conventional(entries[j].1)
    requires i < |entries|
    ensures SliceHolds(Generated(map[], entries, xcframework), Destination(xcframework, entries[i].0),
                       entries[i].1.framework, name,
                       CopyOf(LastNamed(entries[i].1.bcSymbolMaps, name)), CopyOf(DsymNamed(entries[i].1.dsym, name)))
  {
    var init := entries[..|entries| - 1];
    var last := entries[|entries| - 1];
    var earlier := Generated(map[], init, xcframework);
    var symbols := entries[i].1;
    if i == |entries| - 1 {
      NewestSlice(entries, xcframework, name);
    } else {
      assert init[i] == entries[i];
      GeneratedSlice(init, xcframework, i, name);
      OlderSliceKept(entries, xcframework, i, name, CopyOf(LastNamed(symbols.bcSymbolMaps, name)),
                     CopyOf(DsymNamed(symbols.dsym, name)));
    }
  }

  /** The SDK placed last leaves the slice of an earlier one as it was. */
  lemma OlderSliceKept(entries: seq<(Sdk, FrameworkSymbols)>, xcframework: string, i: nat, name: string,
                       map_: Option<Node>, dsym: Option<Node>)
    requires DistinctSdks(entries) && i < |entries| - 1
    requires SliceHolds(Generated(map[], entries[..|entries| - 1], xcframework), Destination(xcframework, entries[i].0),
                        entries[i].1.framework, name, map_, dsym)
    ensures SliceHolds(Generated(map[], entries, xcframework), Destination(xcframework, entries[i].0),
                       entries[i].1.framework, name, map_, dsym)
  {
    var last := entries[|entries| - 1];
    SliceKept(Generated(map[], entries[..|entries| - 1], xcframework), Root(xcframework), last.0, entries[i].0,
              last.1, entries[i].1.framework, name, map_, dsym);
  }

  /** The slice of the SDK placed last holds its framework, symbol maps and dSYM. */
  lemma NewestSlice(entries: seq<(Sdk, FrameworkSymbols)>, xcframework: string, name: string)
    requires DistinctSdks(entries) && |entries| > 0 && Conventional(entries[|entries| - 1].1)
    ensures var last := entries[|entries| - 1];
      SliceHolds(Generated(map[], entries, xcframework), Destination(xcframework, last.0),
                 last.1.framework, name,
                 CopyOf(LastNamed(last.1.bcSymbolMaps, name)), CopyOf(DsymNamed(last.1.dsym, name)))
  {
    var init := entries[..|entries| - 1];
    var last := entries[|entries| - 1];
    var earlier := Generated(map[], init, xcframework);
    assert Generated(map[], entries, xcframework) == Placed(earlier, Destination(xcframework, last.0), last.1);
    assert forall j :: 0 <= j < |init| ==> init[j].0 != last.0;
    SliceFresh(init, xcframework, last.0);
    PlacedEffect(earlier, Destination(xcframework, last.0), last.1, name);
  }

  /** An iteration removes nothing, and creates the directories above the slice. */
  lemma PlacedGrows(nodes: map<string, Node>, slice: string, symbols: FrameworkSymbols)
    ensures nodes.Keys + Ancestry(Child(slice, BCSymbolMapsDir)) <= Placed(nodes, slice, symbols).Keys
  {
    var made := WithDirectories(WithDirectories(nodes, Ancestry(Child(slice, BCSymbolMapsDir))),
                                Ancestry(Child(slice, DsymsDir)));
    AfterCopiesGrows(AfterCopy(made, symbols.framework, slice), symbols.bcSymbolMaps, Child(slice, BCSymbolMapsDir));
  }

  /** After at least one iteration, the bundle directory exists. */
  lemma {:induction false} GeneratedRoot(entries: seq<(Sdk, FrameworkSymbols)>, xcframework: string)
    requires |entries| > 0
    ensures IsDirectory(Generated(map[], entries, xcframework), Root(xcframework))
  {
    var init := entries[..|entries| - 1];
    var last := entries[|entries| - 1];
    var earlier := Generated(map[], init, xcframework);
    var root := Root(xcframework);
    var id := LibraryIdentifier(last.0);
    LibraryIdentifierHasNoSlash(last.0);
    OwnedChild(root, id);
    if |init| > 0 {
      GeneratedRoot(init, xcframework);
    }
    RootInAncestry(root, id, BCSymbolMapsDir);
    PlacedGrows(earlier, Child(root, id), last.1);
    PlacedFrame(earlier, root, id, last.1, root);
  }

  lemma {:induction false} BasenameOfChild(dir: string, name: string)
    requires '/' !in name
    ensures Basename(Child(dir, name)) == name
    decreases |name|
  {
    if |name| > 0 {
      var init := name[..|name| - 1];
      assert Child(dir, name)[..|Child(dir, name)| - 1] == Child(dir, init);
      assert name[|name| - 1] in name;
      BasenameOfChild(dir, init);
      assert name == init + [name[|name| - 1]];
    }
  }

  lemma IdentifierHasDash(sdk: Sdk)
    ensures '-' in LibraryIdentifier(sdk)
  {
    var family := Lower(FamilyName(sdk));
    var rest := Join(SupportedArchitectures(sdk), "_") + (if IsSimulator(sdk) then "-simulator" else "");
    LibraryIdentifierShape(sdk);
    assert LibraryIdentifier(sdk) == family + "-" + rest;
    assert (family + "-" + rest)[|family|] == '-';
  }

  const InfoPlistName := "Info.plist"

  /** The manifest `generate_xcframework_info_plist` writes. */
  function InfoPlistPath(xcframework: string): string
  {
    Child(Root(xcframework), InfoPlistName)
  }

  lemma InfoPlistDirname(xcframework: string)
    ensures Dirname(InfoPlistPath(xcframework)) == Some(Root(xcframework))
  {
    var path := InfoPlistPath(xcframework);
    assert '/' !in InfoPlistName;
    BasenameOfChild(Root(xcframework), InfoPlistName);
    assert path[..|path| - |InfoPlistName| - 1] == Root(xcframework);
  }

  /** A name without a dash is no library identifier, so it names no slice. */
  lemma ChildNotSlice(root: string, name: string, sdk: Sdk)
    requires '/' !in name && '-' !in name
    ensures !Owned(Child(root, name), Child(root, LibraryIdentifier(sdk)))
  {
    var path := Child(root, name);
    LibraryIdentifierHasNoSlash(sdk);
    IdentifierHasDash(sdk);
    assert path[..|path|] == path;
    ChildrenDisjoint(root, name, LibraryIdentifier(sdk), path);
  }

  lemma InfoPlistNameFacts()
    ensures '/' !in InfoPlistName && '-' !in InfoPlistName
  {
  }

  /** No slice is named `Info.plist`, so `generate_xcframework` leaves that path free. */
  lemma InfoPlistFree(entries: seq<(Sdk, FrameworkSymbols)>, xcframework: string)
    ensures InfoPlistPath(xcframework) !in Generated(map[], entries, xcframework)
  {
    var root := Root(xcframework);
    var path := InfoPlistPath(xcframework);
    InfoPlistNameFacts();
    OwnedChild(root, InfoPlistName);
    forall i | 0 <= i < |entries|
      ensures !Owned(path, Destination(xcframework, entries[i].0))
    {
      ChildNotSlice(root, InfoPlistName, entries[i].0);
    }
    if path in Generated(map[], entries, xcframework) {
      GeneratedKeys(entries, xcframework, path);
    }
  }

  /** Writing `<name>.xcframework/Info.plist` after `generate_xcframework` succeeds exactly
      when at least one SDK was accumulated: with none, the bundle directory does not exist. */
  lemma InfoPlistWritable(entries: seq<(Sdk, FrameworkSymbols)>, xcframework: string)
    ensures CanWrite(Generated(map[], entries, xcframework), InfoPlistPath(xcframework)) <==> |entries| > 0
  {
    InfoPlistDirname(xcframework);
    InfoPlistFree(entries, xcframework);
    if |entries| > 0 {
      GeneratedRoot(entries, xcframework);
    }
  }
}
