/** Directory-structure creation (`_mk_dir`, `_mk_folder_structure`) over an
    abstract filesystem: the set of paths that exist. Creating a directory
    fails, as `os.mkdir` does, when its parent is not there. */
module Folders {
  import opened Schema
  import opened Paths

  /** Whether the directory `p` would live in exists, given that the paths
      in `existing` do: `os.mkdir(p)` and `open(p, "w")` succeed exactly
      then. A path without '/' lives in the working directory, which
      exists. */
  predicate ParentExists(existing: set<string>, p: string)
  {
    match ParentOf(p)
    case None => true
    case Some(dir) => dir in existing
  }

  /** The paths that exist after `_mk_dir(*paths)`: the arguments are taken
      in order, an existing one is skipped, a missing one is created, and the
      first creation that fails ends the call. */
  function Walk(existing: set<string>, paths: seq<string>): set<string>
    decreases |paths|
  {
    if paths == [] then existing
    else if paths[0] in existing then Walk(existing, paths[1..])
    else if ParentExists(existing, paths[0]) then Walk(existing + {paths[0]}, paths[1..])
    else existing
  }

  /** Whether `_mk_dir(*paths)` runs to the end without a failed creation. */
  predicate Completes(existing: set<string>, paths: seq<string>)
    decreases |paths|
  {
    if paths == [] then true
    else if paths[0] in existing then Completes(existing, paths[1..])
    else ParentExists(existing, paths[0]) && Completes(existing + {paths[0]}, paths[1..])
  }

  // ---------------------------------------------------------------------
  // Properties of one `_mk_dir` call.

  /** `_mk_dir` never removes a path, and adds only paths it was given. */
  lemma {:induction false} WalkBounds(existing: set<string>, paths: seq<string>)
    ensures existing <= Walk(existing, paths)
    ensures forall p :: p in Walk(existing, paths) ==> p in existing || p in paths
    decreases |paths|
  {
    if paths != [] {
      if paths[0] in existing {
        WalkBounds(existing, paths[1..]);
      } else if ParentExists(existing, paths[0]) {
        WalkBounds(existing + {paths[0]}, paths[1..]);
      }
    }
  }

  /** Run on paths that all exist, `_mk_dir` changes nothing. */
  lemma {:induction false} WalkAllExisting(existing: set<string>, paths: seq<string>)
    requires forall i :: 0 <= i < |paths| ==> paths[i] in existing
    ensures Walk(existing, paths) == existing
    ensures Completes(existing, paths)
    decreases |paths|
  {
    if paths != [] {
      WalkAllExisting(existing, paths[1..]);
    }
  }

  /** Running `_mk_dir` a second time with the same arguments changes
      nothing, whether or not the first run stopped early. */
  lemma {:induction false} WalkIdempotent(existing: set<string>, paths: seq<string>)
    ensures Walk(Walk(existing, paths), paths) == Walk(existing, paths)
    decreases |paths|
  {
    if paths != [] {
      var after := Walk(existing, paths);
      if paths[0] in existing {
        WalkIdempotent(existing, paths[1..]);
        WalkBounds(existing, paths[1..]);
      } else if ParentExists(existing, paths[0]) {
        WalkIdempotent(existing + {paths[0]}, paths[1..]);
        WalkBounds(existing + {paths[0]}, paths[1..]);
      }
    }
  }

  /** A call succeeds exactly when every argument exists afterwards. */
  lemma {:induction false} CompletesIffAllExist(existing: set<string>, paths: seq<string>)
    ensures Completes(existing, paths) <==> forall i :: 0 <= i < |paths| ==> paths[i] in Walk(existing, paths)
    decreases |paths|
  {
    if paths != [] {
      var rest := paths[1..];
      assert forall i :: 1 <= i < |paths| ==> paths[i] == rest[i - 1];
      if paths[0] in existing {
        CompletesIffAllExist(existing, rest);
        WalkBounds(existing, rest);
      } else if ParentExists(existing, paths[0]) {
        CompletesIffAllExist(existing + {paths[0]}, rest);
        WalkBounds(existing + {paths[0]}, rest);
      }
    }
  }

  /** Once a creation has failed, nothing after it is created: the later
      arguments `more` leave the outcome of the failed prefix as it was. */
  lemma {:induction false} WalkStopsAtFailure(existing: set<string>, done: seq<string>, more: seq<string>)
    requires !Completes(existing, done)
    ensures Walk(existing, done + more) == Walk(existing, done)
    decreases |done|
  {
    assert done != [];
    assert (done + more)[0] == done[0];
    assert (done + more)[1..] == done[1..] + more;
    if done[0] in existing {
      WalkStopsAtFailure(existing, done[1..], more);
    } else if ParentExists(existing, done[0]) {
      WalkStopsAtFailure(existing + {done[0]}, done[1..], more);
    }
  }

  /** When a prefix of the arguments succeeds, the rest carry on from the
      state it leaves. */
  lemma {:induction false} WalkAfterSuccess(existing: set<string>, done: seq<string>, more: seq<string>)
    requires Completes(existing, done)
    ensures Walk(existing, done + more) == Walk(Walk(existing, done), more)
    decreases |done|
  {
    if done == [] {
      assert done + more == more;
    } else {
      assert (done + more)[0] == done[0];
      assert (done + more)[1..] == done[1..] + more;
      if done[0] in existing {
        WalkAfterSuccess(existing, done[1..], more);
      } else {
        WalkAfterSuccess(existing + {done[0]}, done[1..], more);
      }
    }
  }

  // ---------------------------------------------------------------------
  // Paths whose parents are always there in time.

  /** The parent of `p` is absent from the path (working directory), already
      available, or one of the paths requested before `p`. */
  predicate ParentAvailable(available: set<string>, before: seq<string>, p: string)
  {
    match ParentOf(p)
    case None => true
    case Some(dir) => dir in available || dir in before
  }

  /** Every path's parent exists at the start or comes earlier in `paths`. */
  predicate ParentsPrecede(available: set<string>, paths: seq<string>)
  {
    forall i :: 0 <= i < |paths| ==> ParentAvailable(available, paths[..i], paths[i])
  }

  function Elems(paths: seq<string>): set<string>
  {
    set p | p in paths
  }

  /** When every parent comes in time, `_mk_dir` succeeds and afterwards
      exactly the old paths and the arguments exist. */
  lemma {:induction false} WalkCreatesAll(existing: set<string>, paths: seq<string>)
    requires ParentsPrecede(existing, paths)
    ensures Completes(existing, paths)
    ensures Walk(existing, paths) == existing + Elems(paths)
    decreases |paths|
  {
    if paths != [] {
      assert paths[..0] == [];
      assert ParentAvailable(existing, [], paths[0]);
      var next := existing + {paths[0]};
      var rest := paths[1..];
      forall i | 0 <= i < |rest|
        ensures ParentAvailable(next, rest[..i], rest[i])
      {
        assert ParentAvailable(existing, paths[..i + 1], paths[i + 1]);
        assert paths[..i + 1] == [paths[0]] + rest[..i];
      }
      WalkCreatesAll(next, rest);
      if paths[0] in existing {
        assert next == existing;
      }
      assert Elems(paths) == {paths[0]} + Elems(rest) by {
        assert forall p :: p in paths <==> p == paths[0] || p in rest;
      }
    }
  }

  /** Splitting a request list: the first part sees the start, the second
      sees the start together with everything the first part requested. */
  lemma ParentsPrecedeSplit(available: set<string>, first: seq<string>, second: seq<string>)
    requires ParentsPrecede(available, first + second)
    ensures ParentsPrecede(available, first)
    ensures ParentsPrecede(available + Elems(first), second)
  {
    var all := first + second;
    forall i | 0 <= i < |first|
      ensures ParentAvailable(available, first[..i], first[i])
    {
      assert all[..i] == first[..i];
      assert ParentAvailable(available, all[..i], all[i]);
    }
    forall i | 0 <= i < |second|
      ensures ParentAvailable(available + Elems(first), second[..i], second[i])
    {
      var k := |first| + i;
      assert all[..k] == first + second[..i];
      assert ParentAvailable(available, all[..k], all[k]);
    }
  }

  /** A larger starting set only makes parents easier to find. */
  lemma ParentsPrecedeWiden(small: set<string>, large: set<string>, paths: seq<string>)
    requires small <= large
    requires ParentsPrecede(small, paths)
    ensures ParentsPrecede(large, paths)
  {
    forall i | 0 <= i < |paths|
      ensures ParentAvailable(large, paths[..i], paths[i])
    {
      assert ParentAvailable(small, paths[..i], paths[i]);
    }
  }

  // ---------------------------------------------------------------------
  // `_mk_folder_structure`: one `_mk_dir` call for the fixed directories,
  // then one per model. Each call stops only itself.

  /** The first call's arguments, in order. */
  function FixedDirs(targetPath: string, projectDir: string): seq<string>
  {
    [Join(targetPath, "src"), projectDir, Join(projectDir, "core"),
     Join(projectDir, "domain"), Join(projectDir, "routers"), Join(targetPath, "tests")]
  }

  /** `'{0}/domain/{1}'.format(project_dir, plural_name)`. */
  function DomainPackage(projectDir: string, pluralName: string): string
  {
    Join(Join(projectDir, "domain"), pluralName)
  }

  /** `'{0}/tests/test_{1}'.format(target_path, plural_name)`. */
  function TestPackage(targetPath: string, pluralName: string): string
  {
    Join(Join(targetPath, "tests"), "test_" + pluralName)
  }

  /** One model's call: its domain package and its test package. */
  function ModelDirs(targetPath: string, projectDir: string, model: Model): seq<string>
  {
    [DomainPackage(projectDir, model.names.pluralName), TestPackage(targetPath, model.names.pluralName)]
  }

  function ModelDirGroups(targetPath: string, projectDir: string, models: seq<Model>): seq<seq<string>>
  {
    if models == [] then []
    else [ModelDirs(targetPath, projectDir, models[0])] + ModelDirGroups(targetPath, projectDir, models[1..])
  }

  /** The argument lists of the successive `_mk_dir` calls. */
  function FolderGroups(targetPath: string, projectDir: string, models: seq<Model>): seq<seq<string>>
  {
    [FixedDirs(targetPath, projectDir)] + ModelDirGroups(targetPath, projectDir, models)
  }

  function Flatten(groups: seq<seq<string>>): seq<string>
  {
    if groups == [] then [] else groups[0] + Flatten(groups[1..])
  }

  /** Every directory `_mk_folder_structure` asks for, in request order. */
  function RequestedDirs(targetPath: string, projectDir: string, models: seq<Model>): seq<string>
  {
    Flatten(FolderGroups(targetPath, projectDir, models))
  }

  /** The paths that exist after successive `_mk_dir` calls. */
  function WalkGroups(existing: set<string>, groups: seq<seq<string>>): set<string>
    decreases |groups|
  {
    if groups == [] then existing else WalkGroups(Walk(existing, groups[0]), groups[1..])
  }

  /** Whether every model's plural name is a single path segment. */
  predicate PluralSegments(models: seq<Model>)
  {
    forall i :: 0 <= i < |models| ==> IsSegment(models[i].names.pluralName)
  }

  lemma {:induction false} ModelDirGroupsSize(targetPath: string, projectDir: string, models: seq<Model>)
    ensures |ModelDirGroups(targetPath, projectDir, models)| == |models|
    ensures forall i :: 0 <= i < |models| ==>
      ModelDirGroups(targetPath, projectDir, models)[i] == ModelDirs(targetPath, projectDir, models[i])
  {
    if models != [] {
      ModelDirGroupsSize(targetPath, projectDir, models[1..]);
    }
  }

  /** The requests: the six fixed directories in their order, then for the
      k-th model its domain package at index 6 + 2k and its test package
      right after. */
  lemma {:induction false} RequestedDirsLayout(targetPath: string, projectDir: string, models: seq<Model>)
    ensures |RequestedDirs(targetPath, projectDir, models)| == 6 + 2 * |models|
    ensures RequestedDirs(targetPath, projectDir, models)[..6] == FixedDirs(targetPath, projectDir)
    ensures forall k :: 0 <= k < |models| ==>
      RequestedDirs(targetPath, projectDir, models)[6 + 2 * k] == DomainPackage(projectDir, models[k].names.pluralName) &&
      RequestedDirs(targetPath, projectDir, models)[7 + 2 * k] == TestPackage(targetPath, models[k].names.pluralName)
  {
    var groups := FolderGroups(targetPath, projectDir, models);
    ModelDirGroupsSize(targetPath, projectDir, models);
    FlattenPairs(ModelDirGroups(targetPath, projectDir, models));
    assert groups[1..] == ModelDirGroups(targetPath, projectDir, models);
  }

  /** The six fixed requests, by position. */
  lemma RequestedFixedAt(targetPath: string, projectDir: string, models: seq<Model>)
    ensures var req := RequestedDirs(targetPath, projectDir, models);
      && |req| >= 6
      && req[0] == Join(targetPath, "src") && req[1] == projectDir
      && req[2] == Join(projectDir, "core") && req[3] == Join(projectDir, "domain")
      && req[4] == Join(projectDir, "routers") && req[5] == Join(targetPath, "tests")
  {
    var req := RequestedDirs(targetPath, projectDir, models);
    RequestedDirsLayout(targetPath, projectDir, models);
    assert forall i :: 0 <= i < 6 ==> req[i] == req[..6][i];
  }

  lemma {:induction false} FlattenPairs(groups: seq<seq<string>>)
    requires forall i :: 0 <= i < |groups| ==> |groups[i]| == 2
    ensures |Flatten(groups)| == 2 * |groups|
    ensures forall k :: 0 <= k < |groups| ==> Flatten(groups)[2 * k] == groups[k][0] && Flatten(groups)[2 * k + 1] == groups[k][1]
  {
    if groups != [] {
      FlattenPairs(groups[1..]);
      forall k | 1 <= k < |groups|
        ensures Flatten(groups)[2 * k] == groups[k][0] && Flatten(groups)[2 * k + 1] == groups[k][1]
      {
        assert groups[1..][k - 1] == groups[k];
      }
    }
  }

  // ---------------------------------------------------------------------
  // The structure `gen_api_files` asks for.

  /** `'{0}/src/{1}'.format(target_path, project_name)`. */
  function ProjectDir(targetPath: string, projectName: string): string
  {
    Join(Join(targetPath, "src"), projectName)
  }

  lemma FixedNamesAreSegments()
    ensures IsSegment("src") && IsSegment("core") && IsSegment("domain")
    ensures IsSegment("routers") && IsSegment("tests")
  {
    LiteralSegment("src");
    LiteralSegment("core");
    LiteralSegment("domain");
    LiteralSegment("routers");
    LiteralSegment("tests");
  }

  /** The parent of each fixed directory. */
  lemma FixedParents(targetPath: string, projectName: string)
    requires IsSegment(projectName)
    ensures var fixed := FixedDirs(targetPath, ProjectDir(targetPath, projectName));
      && ParentOf(fixed[0]) == Some(targetPath)
      && ParentOf(fixed[1]) == Some(fixed[0])
      && ParentOf(fixed[2]) == Some(fixed[1])
      && ParentOf(fixed[3]) == Some(fixed[1])
      && ParentOf(fixed[4]) == Some(fixed[1])
      && ParentOf(fixed[5]) == Some(targetPath)
  {
    var projectDir := ProjectDir(targetPath, projectName);
    FixedNamesAreSegments();
    JoinParent(targetPath, "src");
    JoinParent(Join(targetPath, "src"), projectName);
    JoinParent(projectDir, "core");
    JoinParent(projectDir, "domain");
    JoinParent(projectDir, "routers");
    JoinParent(targetPath, "tests");
  }

  /** Within the fixed directories each parent is the target or an
      earlier one. */
  lemma FixedParentAt(targetPath: string, projectName: string, i: nat)
    requires IsSegment(projectName) && i < 6
    ensures var fixed := FixedDirs(targetPath, ProjectDir(targetPath, projectName));
      ParentAvailable({targetPath}, fixed[..i], fixed[i])
  {
    var fixed := FixedDirs(targetPath, ProjectDir(targetPath, projectName));
    FixedParents(targetPath, projectName);
    if i == 1 {
      assert fixed[..i][0] == fixed[0];
    } else if 2 <= i < 5 {
      assert fixed[..i][1] == fixed[1];
    }
  }

  /** Each requested directory's parent is the target directory or a
      directory requested earlier, provided the project name and the plural
      names are single path segments. */
  lemma RequestedParentsPrecede(targetPath: string, projectName: string, models: seq<Model>)
    requires IsSegment(projectName) && PluralSegments(models)
    ensures ParentsPrecede({targetPath}, RequestedDirs(targetPath, ProjectDir(targetPath, projectName), models))
  {
    var projectDir := ProjectDir(targetPath, projectName);
    var req := RequestedDirs(targetPath, projectDir, models);
    RequestedDirsLayout(targetPath, projectDir, models);
    var fixed := FixedDirs(targetPath, projectDir);
    forall i | 0 <= i < |req|
      ensures ParentAvailable({targetPath}, req[..i], req[i])
    {
      if i < 6 {
        FixedParentAt(targetPath, projectName, i);
        assert req[..i] == fixed[..i] && req[i] == fixed[i];
      } else {
        ModelParentAt(targetPath, projectDir, models, req, i);
      }
    }
  }

  /** A model's directories have the domain directory and the tests
      directory as parents, both among the first six requests. */
  lemma ModelParentAt(targetPath: string, projectDir: string, models: seq<Model>, req: seq<string>, i: nat)
    requires PluralSegments(models)
    requires req == RequestedDirs(targetPath, projectDir, models)
    requires 6 <= i < |req|
    ensures ParentAvailable({targetPath}, req[..i], req[i])
  {
    RequestedDirsLayout(targetPath, projectDir, models);
    var k := (i - 6) / 2;
    var plural := models[k].names.pluralName;
    assert IsSegment(plural);
    assert req[..6] == FixedDirs(targetPath, projectDir);
    if i == 6 + 2 * k {
      var domain := Join(projectDir, "domain");
      JoinParent(domain, plural);
      assert req[..i][3] == req[..6][3] == domain;
    } else {
      assert i == 7 + 2 * k;
      var tests := Join(targetPath, "tests");
      LiteralSegment("test_");
      SegmentConcat("test_", plural);
      JoinParent(tests, "test_" + plural);
      assert req[..i][5] == req[..6][5] == tests;
    }
  }

  lemma ElemsConcat(a: seq<string>, b: seq<string>)
    ensures Elems(a + b) == Elems(a) + Elems(b)
  {
    assert forall p :: p in a + b <==> p in a || p in b;
  }

  /** Successive `_mk_dir` calls whose parents all come in time create
      exactly the requested directories. */
  lemma {:induction false} WalkGroupsCreatesAll(existing: set<string>, groups: seq<seq<string>>)
    requires ParentsPrecede(existing, Flatten(groups))
    ensures WalkGroups(existing, groups) == existing + Elems(Flatten(groups))
    decreases |groups|
  {
    if groups != [] {
      var rest := Flatten(groups[1..]);
      ParentsPrecedeSplit(existing, groups[0], rest);
      WalkCreatesAll(existing, groups[0]);
      WalkGroupsCreatesAll(existing + Elems(groups[0]), groups[1..]);
      ElemsConcat(groups[0], rest);
    }
  }

  /** With the target directory present and single-segment names,
      `_mk_folder_structure` creates every directory it asks for and nothing
      else. */
  lemma FolderStructureCreatesAll(existing: set<string>, targetPath: string, projectName: string, models: seq<Model>)
    requires targetPath in existing
    requires IsSegment(projectName) && PluralSegments(models)
    ensures WalkGroups(existing, FolderGroups(targetPath, ProjectDir(targetPath, projectName), models))
         == existing + Elems(RequestedDirs(targetPath, ProjectDir(targetPath, projectName), models))
  {
    var projectDir := ProjectDir(targetPath, projectName);
    RequestedParentsPrecede(targetPath, projectName, models);
    ParentsPrecedeWiden({targetPath}, existing, RequestedDirs(targetPath, projectDir, models));
    WalkGroupsCreatesAll(existing, FolderGroups(targetPath, projectDir, models));
  }

  /** Under the same conditions a second `_mk_folder_structure` changes
      nothing. */
  lemma FolderStructureIdempotent(existing: set<string>, targetPath: string, projectName: string, models: seq<Model>)
    requires targetPath in existing
    requires IsSegment(projectName) && PluralSegments(models)
    ensures var groups := FolderGroups(targetPath, ProjectDir(targetPath, projectName), models);
      WalkGroups(WalkGroups(existing, groups), groups) == WalkGroups(existing, groups)
  {
    var groups := FolderGroups(targetPath, ProjectDir(targetPath, projectName), models);
    FolderStructureCreatesAll(existing, targetPath, projectName, models);
    FolderStructureCreatesAll(WalkGroups(existing, groups), targetPath, projectName, models);
  }

  /** Successive `_mk_dir` calls never remove a path and add only requested
      ones. */
  lemma {:induction false} WalkGroupsBounds(existing: set<string>, groups: seq<seq<string>>)
    ensures existing <= WalkGroups(existing, groups)
    ensures WalkGroups(existing, groups) <= existing + Elems(Flatten(groups))
    decreases |groups|
  {
    if groups != [] {
      WalkBounds(existing, groups[0]);
      WalkGroupsBounds(Walk(existing, groups[0]), groups[1..]);
      ElemsConcat(groups[0], Flatten(groups[1..]));
    }
  }
}
