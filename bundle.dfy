// `generate_xcframework`: the manual strategy, which lays out the XCFramework directory by
// hand. The file tree relative to the working directory is a map from path to node; copying a
// framework or a dSYM bundle is one node that remembers its source (the bundle's own contents
// are not modelled).
module Bundle {
  import opened Wrappers
  import opened Text
  import opened Platforms
  import opened Symbols
  import opened Manifest

  datatype Node = Directory | Copied(source: string) | Written(plist: InfoPlist)

  const BCSymbolMapsDir := "BCSymbolMaps"
  const DsymsDir := "dSYMs"

  /** `"#{dir}/#{name}"` */
  function Child(dir: string, name: string): string
  {
    dir + "/" + name
  }

  /** The node at `path`, if there is one. */
  function At(nodes: map<string, Node>, path: string): Option<Node>
  {
    if path in nodes then Some(nodes[path]) else None
  }

  predicate IsDirectory(nodes: map<string, Node>, path: string)
  {
    path in nodes && nodes[path] == Directory
  }

  /** `path` is `dir` or lies beneath it. */
  predicate Owned(path: string, dir: string)
  {
    StartsWith(path, dir) && (|path| == |dir| || path[|dir|] == '/')
  }

  /** What `mkdir_p` creates: every prefix that ends before a `/`, and the path itself. */
  function Ancestry(path: string): set<string>
  {
    (set i | 0 < i < |path| && path[i] == '/' :: path[..i]) + (if |path| == 0 then {} else {path})
  }

  /** `FileUtils.mkdir_p`: each missing directory is created; what exists is left as it is. */
  function WithDirectories(nodes: map<string, Node>, dirs: set<string>): map<string, Node>
  {
    map p | p in nodes.Keys + dirs :: if p in nodes then nodes[p] else Directory
  }

  /** Where `FileUtils.cp` and `cp_r` put `source`: inside `dest` when it is a directory,
      otherwise at `dest` itself. */
  function Target(nodes: map<string, Node>, source: string, dest: string): string
  {
    if IsDirectory(nodes, dest) then Child(dest, Basename(source)) else dest
  }

  function AfterCopy(nodes: map<string, Node>, source: string, dest: string): map<string, Node>
  {
    nodes[Target(nodes, source, dest) := Copied(source)]
  }

  /** Copying every source into `dest`, in order. */
  function AfterCopies(nodes: map<string, Node>, sources: seq<string>, dest: string): map<string, Node>
  {
    if |sources| == 0 then nodes
    else AfterCopy(AfterCopies(nodes, sources[..|sources| - 1], dest), sources[|sources| - 1], dest)
  }

  /** `"#{xcframework}.xcframework"` */
  function Root(xcframework: string): string
  {
    xcframework + ".xcframework"
  }

  /** The directory of one SDK's slice. */
  function Destination(xcframework: string, sdk: Sdk): string
  {
    Child(Root(xcframework), LibraryIdentifier(sdk))
  }

  /** One iteration of `generate_xcframework`: both symbol directories, then the framework,
      the symbol maps and the dSYM. */
  function Placed(nodes: map<string, Node>, destination: string, symbols: FrameworkSymbols): map<string, Node>
  {
    var made := WithDirectories(WithDirectories(nodes, Ancestry(Child(destination, BCSymbolMapsDir))),
                                Ancestry(Child(destination, DsymsDir)));
    var framework := AfterCopy(made, symbols.framework, destination);
    var maps := AfterCopies(framework, symbols.bcSymbolMaps, Child(destination, BCSymbolMapsDir));
    match symbols.dsym
    case Some(dsym) => AfterCopy(maps, dsym, Child(destination, DsymsDir))
    case None => maps
  }

  /** The tree after `generate_xcframework` over the accumulated entries. */
  function Generated(nodes: map<string, Node>, entries: seq<(Sdk, FrameworkSymbols)>, xcframework: string): map<string, Node>
  {
    if |entries| == 0 then nodes
    else
      var last := entries[|entries| - 1];
      Placed(Generated(nodes, entries[..|entries| - 1], xcframework), Destination(xcframework, last.0), last.1)
  }

  /** The directory that holds a path's last component, if the path names one. */
  function Dirname(path: string): Option<string>
  {
    var name := Basename(path);
    if |name| < |path| then Some(path[..|path| - |name| - 1]) else None
  }

  /** `File.write` succeeds when the enclosing directory exists (or the path is relative to the
      working directory) and the path is not itself a directory. */
  predicate CanWrite(nodes: map<string, Node>, path: string)
  {
    (Dirname(path).None? || IsDirectory(nodes, Dirname(path).value)) && !IsDirectory(nodes, path)
  }

  /** The working directory of the manual strategy. */
  class FileTree {
    var nodes: map<string, Node>

    constructor ()
      ensures nodes == map[]
    {
      nodes := map[];
    }

    method MkdirP(path: string)
      modifies this
      ensures nodes == WithDirectories(old(nodes), Ancestry(path))
    {
      nodes := WithDirectories(nodes, Ancestry(path));
    }

    /** `FileUtils.cp` and `FileUtils.cp_r`. */
    method Cp(source: string, dest: string)
      modifies this
      ensures nodes == AfterCopy(old(nodes), source, dest)
    {
      nodes := AfterCopy(nodes, source, dest);
    }

    /** `File.write`: reports failure (`Errno`) and changes nothing when it cannot write. */
    method Write(path: string, plist: InfoPlist) returns (ok: bool)
      modifies this
      ensures ok <==> CanWrite(old(nodes), path)
      ensures nodes == if ok then old(nodes)[path := Written(plist)] else old(nodes)
    {
      ok := CanWrite(nodes, path);
      if ok {
        nodes := nodes[path := Written(plist)];
      }
    }
  }

  lemma AfterCopiesStep(nodes: map<string, Node>, sources: seq<string>, dest: string, j: nat)
    requires j < |sources|
    ensures AfterCopies(nodes, sources[..j + 1], dest) == AfterCopy(AfterCopies(nodes, sources[..j], dest), sources[j], dest)
  {
    assert sources[..j + 1][..j] == sources[..j];
  }

  lemma GeneratedStep(nodes: map<string, Node>, entries: seq<(Sdk, FrameworkSymbols)>, xcframework: string, i: nat)
    requires i < |entries|
    ensures Generated(nodes, entries[..i + 1], xcframework) ==
            Placed(Generated(nodes, entries[..i], xcframework), Destination(xcframework, entries[i].0), entries[i].1)
  {
    assert entries[..i + 1][..i] == entries[..i];
  }

  /** `generate_xcframework`: for each accumulated SDK, in order, creates the slice's
      `BCSymbolMaps` and `dSYMs` directories, copies in the framework, every kept symbol map
      and the dSYM if there is one. */
  method GenerateXcframework(tree: FileTree, entries: seq<(Sdk, FrameworkSymbols)>, xcframework: string)
    modifies tree
    ensures tree.nodes == Generated(old(tree.nodes), entries, xcframework)
  {
    for i := 0 to |entries|
      invariant tree.nodes == Generated(old(tree.nodes), entries[..i], xcframework)
    {
      var sdk := entries[i].0;
      var details := entries[i].1;
      var destination := Destination(xcframework, sdk);
      tree.MkdirP(Child(destination, BCSymbolMapsDir));
      tree.MkdirP(Child(destination, DsymsDir));
      tree.Cp(details.framework, destination);
      ghost var framework := tree.nodes;
      var maps := details.bcSymbolMaps;
      for j := 0 to |maps|
        invariant tree.nodes == AfterCopies(framework, maps[..j], Child(destination, BCSymbolMapsDir))
      {
        tree.Cp(maps[j], Child(destination, BCSymbolMapsDir));
        AfterCopiesStep(framework, maps, Child(destination, BCSymbolMapsDir), j);
      }
      assert maps[..|maps|] == maps;
      if details.dsym.Some? {
        tree.Cp(details.dsym.value, Child(destination, DsymsDir));
      }
      GeneratedStep(old(tree.nodes), entries, xcframework, i);
    }
    assert entries[..|entries|] == entries;
  }
}
