// `set_version_and_build_number`: stamps the version and the build number into every
// Info.plist of an archive with PlistBuddy, falling back from `Set` to `Add` when `Set` fails.
// The shell is a parameter: `shell(line)` says whether the command line succeeded.
module Stamping {
  import opened Wrappers
  import opened Semver

  const VersionKey := "CFBundleShortVersionString"
  const BuildKey := "CFBundleVersion"

  /** One PlistBuddy invocation. */
  datatype Invocation = Set(entry: string, value: string, path: string) | Add(entry: string, value: string, path: string)

  /** The command line handed to the shell. */
  function CommandLine(invocation: Invocation): string
  {
    match invocation
    case Set(entry, value, path) => "/usr/libexec/Plistbuddy -c \"Set " + entry + " " + value + "\" " + path
    case Add(entry, value, path) => "/usr/libexec/Plistbuddy -c \"Add " + entry + " string " + value + "\" " + path
  }

  function InfoPlistPattern(xcarchive: string): string
  {
    xcarchive + "/Products/**/Info.plist"
  }

  /** `set`: tries `Set`, and after any shell failure of it tries `Add`; the entry is stamped
      when one of them succeeds, otherwise the failure of `Add` propagates. */
  function Setting(entry: string, value: string, path: string, shell: string -> bool): (r: (seq<Invocation>, bool))
    ensures |r.0| > 0 && r.0[0] == Set(entry, value, path)
    ensures |r.0| == 2 <==> !shell(CommandLine(Set(entry, value, path)))
    ensures |r.0| == 2 ==> r.0[1] == Add(entry, value, path)
    ensures r.1 <==> shell(CommandLine(Set(entry, value, path))) || shell(CommandLine(Add(entry, value, path)))
  {
    if shell(CommandLine(Set(entry, value, path))) then ([Set(entry, value, path)], true)
    else ([Set(entry, value, path), Add(entry, value, path)], shell(CommandLine(Add(entry, value, path))))
  }

  /** The invocations for one Info.plist, and whether they all landed: the version first, if
      given, then the build number, if given; a failure stops everything. */
  function StampPath(path: string, version: Option<string>, buildNumber: Option<string>, shell: string -> bool): (seq<Invocation>, bool)
  {
    var first := if version.Some? then Setting(VersionKey, Normalize(version.value), path, shell) else ([], true);
    if !first.1 || buildNumber.None? then first
    else
      var second := Setting(BuildKey, buildNumber.value, path, shell);
      (first.0 + second.0, second.1)
  }

  /** Every Info.plist in glob order, stopping at the first failure. */
  function Stamped(paths: seq<string>, version: Option<string>, buildNumber: Option<string>, shell: string -> bool): (seq<Invocation>, bool)
  {
    if |paths| == 0 then ([], true)
    else
      var first := StampPath(paths[0], version, buildNumber, shell);
      if !first.1 then first
      else
        var rest := Stamped(paths[1..], version, buildNumber, shell);
        (first.0 + rest.0, rest.1)
  }

  /** `set` */
  method SetEntry(entry: string, value: string, path: string, shell: string -> bool)
    returns (issued: seq<Invocation>, landed: bool)
    ensures (issued, landed) == Setting(entry, value, path, shell)
  {
    issued := [Set(entry, value, path)];
    landed := shell(CommandLine(Set(entry, value, path)));
    if !landed {
      issued := issued + [Add(entry, value, path)];
      assert issued == [Set(entry, value, path), Add(entry, value, path)];
      landed := shell(CommandLine(Add(entry, value, path)));
    }
  }

  /** The body of the loop over the Info.plist files: the version, then the build number. */
  method StampInfoPlist(path: string, version: Option<string>, buildNumber: Option<string>, shell: string -> bool)
    returns (issued: seq<Invocation>, ok: bool)
    ensures (issued, ok) == StampPath(path, version, buildNumber, shell)
  {
    issued := [];
    if version.Some? {
      var semver := Normalize(version.value);
      var invocations, landed := SetEntry(VersionKey, semver, path, shell);
      issued := invocations;
      if !landed {
        return issued, false;
      }
    }
    if buildNumber.Some? {
      var invocations, landed := SetEntry(BuildKey, buildNumber.value, path, shell);
      issued := issued + invocations;
      return issued, landed;
    }
    ok := true;
  }

  /** `set_version_and_build_number`: the invocations made, and whether the archive was
      stamped (`false` is the shell error that ends the action). */
  method SetVersionAndBuildNumber(xcarchive: string, version: Option<string>, buildNumber: Option<string>,
                                  glob: string -> seq<string>, shell: string -> bool)
    returns (issued: seq<Invocation>, ok: bool)
    ensures (issued, ok) == Stamped(glob(InfoPlistPattern(xcarchive)), version, buildNumber, shell)
  {
    var paths := glob(InfoPlistPattern(xcarchive));
    ghost var whole := Stamped(paths, version, buildNumber, shell);
    issued := [];
    assert paths[0..] == paths && [] + whole.0 == whole.0;
    for i := 0 to |paths|
      invariant whole == (issued + Stamped(paths[i..], version, buildNumber, shell).0, Stamped(paths[i..], version, buildNumber, shell).1)
    {
      var invocations, landed := StampInfoPlist(paths[i], version, buildNumber, shell);
      StampedStep(paths, i, version, buildNumber, shell, issued, invocations, landed);
      if !landed {
        return issued + invocations, false;
      }
      issued := issued + invocations;
    }
    assert paths[|paths|..] == [];
    assert issued + [] == issued;
    ok := true;
  }

  /** One step of `Stamped` from the `i`-th Info.plist on, after the invocations `issued`,
      given what that Info.plist gave. */
  lemma StampedStep(paths: seq<string>, i: nat, version: Option<string>, buildNumber: Option<string>, shell: string -> bool,
                    issued: seq<Invocation>, invocations: seq<Invocation>, landed: bool)
    requires i < |paths| && (invocations, landed) == StampPath(paths[i], version, buildNumber, shell)
    ensures var now := Stamped(paths[i..], version, buildNumber, shell);
      var later := Stamped(paths[i + 1..], version, buildNumber, shell);
      (issued + now.0, now.1) == if landed then ((issued + invocations) + later.0, later.1) else (issued + invocations, false)
  {
    assert paths[i..][0] == paths[i] && paths[i..][1..] == paths[i + 1..];
    var later := Stamped(paths[i + 1..], version, buildNumber, shell);
    assert issued + (invocations + later.0) == (issued + invocations) + later.0;
  }

  /** An entry is stamped when its `Set` or, failing that, its `Add` succeeds. */
  predicate Lands(entry: string, value: string, path: string, shell: string -> bool)
  {
    shell(CommandLine(Set(entry, value, path))) || shell(CommandLine(Add(entry, value, path)))
  }

  /** Both entries of one Info.plist land. */
  predicate PathLands(path: string, version: Option<string>, buildNumber: Option<string>, shell: string -> bool)
  {
    (version.Some? ==> Lands(VersionKey, Normalize(version.value), path, shell)) &&
    (buildNumber.Some? ==> Lands(BuildKey, buildNumber.value, path, shell))
  }

  /** The archive is stamped exactly when every entry of every Info.plist lands. */
  lemma {:induction false} StampedLands(paths: seq<string>, version: Option<string>, buildNumber: Option<string>, shell: string -> bool)
    ensures Stamped(paths, version, buildNumber, shell).1 <==>
            forall i :: 0 <= i < |paths| ==> PathLands(paths[i], version, buildNumber, shell)
  {
    if |paths| > 0 {
      StampedLands(paths[1..], version, buildNumber, shell);
      assert forall i :: 1 <= i < |paths| ==> paths[i] == paths[1..][i - 1];
    }
  }

  /** The `Set` invocations one Info.plist needs. */
  function Sets(path: string, version: Option<string>, buildNumber: Option<string>): seq<Invocation>
  {
    (if version.Some? then [Set(VersionKey, Normalize(version.value), path)] else []) +
    (if buildNumber.Some? then [Set(BuildKey, buildNumber.value, path)] else [])
  }

  function AllSets(paths: seq<string>, version: Option<string>, buildNumber: Option<string>): seq<Invocation>
  {
    if |paths| == 0 then [] else Sets(paths[0], version, buildNumber) + AllSets(paths[1..], version, buildNumber)
  }

  lemma StampPathWhenSetsSucceed(path: string, version: Option<string>, buildNumber: Option<string>, shell: string -> bool)
    requires forall j :: 0 <= j < |Sets(path, version, buildNumber)| ==> shell(CommandLine(Sets(path, version, buildNumber)[j]))
    ensures StampPath(path, version, buildNumber, shell) == (Sets(path, version, buildNumber), true)
  {
    var sets := Sets(path, version, buildNumber);
    if version.Some? {
      assert sets[0] == Set(VersionKey, Normalize(version.value), path);
    }
    if buildNumber.Some? {
      assert sets[|sets| - 1] == Set(BuildKey, buildNumber.value, path);
      if version.None? {
        assert [] + Setting(BuildKey, buildNumber.value, path, shell).0 == Setting(BuildKey, buildNumber.value, path, shell).0;
        assert sets == [Set(BuildKey, buildNumber.value, path)];
      }
    } else {
      assert sets == (if version.Some? then [Set(VersionKey, Normalize(version.value), path)] else []);
    }
  }

  /** When every `Set` succeeds, no `Add` is made: each Info.plist gets the normalised version,
      then the build number, in glob order. */
  lemma {:induction false} StampedWhenSetsSucceed(paths: seq<string>, version: Option<string>, buildNumber: Option<string>, shell: string -> bool)
    requires forall i, j :: 0 <= i < |paths| && 0 <= j < |Sets(paths[i], version, buildNumber)| ==>
               shell(CommandLine(Sets(paths[i], version, buildNumber)[j]))
    ensures Stamped(paths, version, buildNumber, shell) == (AllSets(paths, version, buildNumber), true)
  {
    if |paths| > 0 {
      assert forall j :: 0 <= j < |Sets(paths[0], version, buildNumber)| ==>
        shell(CommandLine(Sets(paths[0], version, buildNumber)[j]));
      StampPathWhenSetsSucceed(paths[0], version, buildNumber, shell);
      forall i, j | 0 <= i < |paths[1..]| && 0 <= j < |Sets(paths[1..][i], version, buildNumber)|
        ensures shell(CommandLine(Sets(paths[1..][i], version, buildNumber)[j]))
      {
        assert paths[1..][i] == paths[i + 1];
      }
      StampedWhenSetsSucceed(paths[1..], version, buildNumber, shell);
    }
  }

  /** An `Add` is made only right after the `Set` of the same entry, value and file failed,
      and every failed `Set` is followed by its `Add`. */
  predicate FallsBack(trace: seq<Invocation>, shell: string -> bool)
  {
    (forall j :: 0 <= j < |trace| && trace[j].Add? ==>
       j > 0 && trace[j - 1] == Set(trace[j].entry, trace[j].value, trace[j].path) &&
       !shell(CommandLine(trace[j - 1]))) &&
    (forall j :: 0 <= j < |trace| && trace[j].Set? && !shell(CommandLine(trace[j])) ==>
       j + 1 < |trace| && trace[j + 1] == Add(trace[j].entry, trace[j].value, trace[j].path))
  }

  lemma FallsBackConcat(a: seq<Invocation>, b: seq<Invocation>, shell: string -> bool)
    requires FallsBack(a, shell) && FallsBack(b, shell)
    ensures FallsBack(a + b, shell)
  {
    var ab := a + b;
    forall j | 0 <= j < |ab| && ab[j].Add?
      ensures j > 0 && ab[j - 1] == Set(ab[j].entry, ab[j].value, ab[j].path) && !shell(CommandLine(ab[j - 1]))
    {
      if j >= |a| {
        assert ab[j] == b[j - |a|];
        assert ab[j - 1] == b[j - |a| - 1];
      }
    }
    forall j | 0 <= j < |ab| && ab[j].Set? && !shell(CommandLine(ab[j]))
      ensures j + 1 < |ab| && ab[j + 1] == Add(ab[j].entry, ab[j].value, ab[j].path)
    {
      if j >= |a| {
        assert ab[j] == b[j - |a|];
      }
    }
  }

  lemma SettingFallsBack(entry: string, value: string, path: string, shell: string -> bool)
    ensures FallsBack(Setting(entry, value, path, shell).0, shell)
  {
  }

  lemma StampPathFallsBack(path: string, version: Option<string>, buildNumber: Option<string>, shell: string -> bool)
    ensures FallsBack(StampPath(path, version, buildNumber, shell).0, shell)
  {
    if version.Some? {
      SettingFallsBack(VersionKey, Normalize(version.value), path, shell);
    }
    if buildNumber.Some? {
      SettingFallsBack(BuildKey, buildNumber.value, path, shell);
      if version.Some? {
        FallsBackConcat(Setting(VersionKey, Normalize(version.value), path, shell).0,
                        Setting(BuildKey, buildNumber.value, path, shell).0, shell);
      } else {
        assert [] + Setting(BuildKey, buildNumber.value, path, shell).0 == Setting(BuildKey, buildNumber.value, path, shell).0;
      }
    }
  }

  /** Whatever the shell does, the trace shows the `Set`-then-`Add` fallback. */
  lemma {:induction false} StampedFallsBack(paths: seq<string>, version: Option<string>, buildNumber: Option<string>, shell: string -> bool)
    ensures FallsBack(Stamped(paths, version, buildNumber, shell).0, shell)
  {
    if |paths| > 0 {
      StampPathFallsBack(paths[0], version, buildNumber, shell);
      StampedFallsBack(paths[1..], version, buildNumber, shell);
      var first := StampPath(paths[0], version, buildNumber, shell);
      if first.1 {
        FallsBackConcat(first.0, Stamped(paths[1..], version, buildNumber, shell).0, shell);
      }
    }
  }

  /** The trace ends with an `Add` that failed right after its `Set` failed too. */
  predicate EndsInFailedAdd(trace: seq<Invocation>, shell: string -> bool)
  {
    |trace| >= 2 && trace[|trace| - 1].Add? && !shell(CommandLine(trace[|trace| - 1])) &&
    trace[|trace| - 2].Set? && !shell(CommandLine(trace[|trace| - 2]))
  }

  lemma StampPathFailure(path: string, version: Option<string>, buildNumber: Option<string>, shell: string -> bool)
    ensures !StampPath(path, version, buildNumber, shell).1 ==> EndsInFailedAdd(StampPath(path, version, buildNumber, shell).0, shell)
  {
  }

  /** When the archive is not stamped, the last invocation is an `Add` that failed right after
      its `Set` failed too. */
  lemma {:induction false} StampedFailure(paths: seq<string>, version: Option<string>, buildNumber: Option<string>, shell: string -> bool)
    ensures !Stamped(paths, version, buildNumber, shell).1 ==> EndsInFailedAdd(Stamped(paths, version, buildNumber, shell).0, shell)
  {
    if |paths| > 0 {
      var first := StampPath(paths[0], version, buildNumber, shell);
      var rest := Stamped(paths[1..], version, buildNumber, shell);
      StampPathFailure(paths[0], version, buildNumber, shell);
      StampedFailure(paths[1..], version, buildNumber, shell);
      if first.1 && !rest.1 {
        EndsInFailedAddAfter(first.0, rest.0, shell);
      }
    }
  }

  lemma EndsInFailedAddAfter(front: seq<Invocation>, trace: seq<Invocation>, shell: string -> bool)
    requires EndsInFailedAdd(trace, shell)
    ensures EndsInFailedAdd(front + trace, shell)
  {
    var t := front + trace;
    assert t[|t| - 1] == trace[|trace| - 1] && t[|t| - 2] == trace[|trace| - 2];
  }
}
