/** `gen_api_files`: create the folder structure, then render every model's
    eleven files in model order, then the two shared test files and the
    three project-wide files. Template rendering is an uninterpreted step
    that records the template, the output path and the rendering context;
    the first exception (a model without primary key, or an output whose
    directory is missing) ends the whole run. */
module Generator {
  import opened Schema
  import opened Paths
  import opened PrimaryKey
  import opened Folders
  import opened Layout

  /** What a template is rendered against: a model with its resolved key
      (the key's source type name, which the type translator maps for the
      template) or the whole model list. */
  datatype Context =
    | ModelContext(model: Model, keyName: string, keyType: string, projectName: string)
    | ProjectContext(models: seq<Model>, projectName: string)

  /** One rendered and written file. */
  datatype Rendered = Rendered(template: string, output: string, context: Context)

  /** The files a run writes, in order, and whether it ran to the end. */
  datatype Outcome = Outcome(written: seq<Rendered>, ok: bool)

  /** Run `first`, and `next` only if `first` raised nothing. */
  function Then(first: Outcome, next: Outcome): Outcome
  {
    if first.ok then Outcome(first.written + next.written, next.ok) else first
  }

  /** The context `_gen_model_file` renders a model's templates against. */
  function KeyContext(model: Model, key: Field, projectName: string): Context
  {
    ModelContext(model, key.name, key.fieldType.name, projectName)
  }

  /** `_gen_model_file` for each file in turn: resolve the model's key (no
      key raises), then write the rendered template (a missing directory
      raises). */
  function WriteModelFiles(existing: set<string>, model: Model, files: seq<OutputFile>, projectName: string): Outcome
    decreases |files|
  {
    if files == [] then Outcome([], true)
    else match ResolveKey(model.fields)
      case NoPrimaryKey => Outcome([], false)
      case Found(key) =>
        if !ParentExists(existing, files[0].Output()) then Outcome([], false)
        else Then(Outcome([Rendered(files[0].template, files[0].Output(), KeyContext(model, key, projectName))], true),
                  WriteModelFiles(existing, model, files[1..], projectName))
  }

  /** `_gen_file` for each file in turn, against the whole model list. */
  function WriteProjectFiles(existing: set<string>, files: seq<OutputFile>, models: seq<Model>, projectName: string): Outcome
    decreases |files|
  {
    if files == [] then Outcome([], true)
    else if !ParentExists(existing, files[0].Output()) then Outcome([], false)
    else Then(Outcome([Rendered(files[0].template, files[0].Output(), ProjectContext(models, projectName))], true),
              WriteProjectFiles(existing, files[1..], models, projectName))
  }

  /** One iteration of the model loop in `gen_api_files`. */
  function ModelOutcome(existing: set<string>, model: Model, templatesPath: string, targetPath: string, projectName: string): Outcome
  {
    WriteModelFiles(existing, model, ModelFiles(templatesPath, targetPath, projectName, model.names), projectName)
  }

  /** Steps run one after the other, stopping at the first that raises. */
  function RunAll(steps: seq<Outcome>): Outcome
    decreases |steps|
  {
    if steps == [] then Outcome([], true)
    else Then(RunAll(steps[..|steps| - 1]), steps[|steps| - 1])
  }

  /** What each model's iteration would do on its own. */
  function ModelSteps(existing: set<string>, models: seq<Model>, templatesPath: string, targetPath: string, projectName: string): (r: seq<Outcome>)
    ensures |r| == |models|
  {
    seq(|models|, i requires 0 <= i < |models| => ModelOutcome(existing, models[i], templatesPath, targetPath, projectName))
  }

  /** The whole model loop, stopping at the first model that raises. */
  function ModelsOutcome(existing: set<string>, models: seq<Model>, templatesPath: string, targetPath: string, projectName: string): Outcome
  {
    RunAll(ModelSteps(existing, models, templatesPath, targetPath, projectName))
  }

  /** The paths that exist once `_mk_folder_structure` has run. */
  function GeneratedDirs(existing: set<string>, models: seq<Model>, targetPath: string, projectName: string): set<string>
  {
    WalkGroups(existing, FolderGroups(targetPath, ProjectDir(targetPath, projectName), models))
  }

  /** Everything `gen_api_files` writes, and whether it returns normally. */
  function GenApiOutcome(existing: set<string>, models: seq<Model>, templatesPath: string, targetPath: string, projectName: string): Outcome
  {
    var dirs := GeneratedDirs(existing, models, targetPath, projectName);
    Then(ModelsOutcome(dirs, models, templatesPath, targetPath, projectName),
         ProjectFilesOutcome(dirs, models, templatesPath, targetPath, projectName))
  }

  /** What a run writes when nothing raises: the files in the given order,
      each rendered against `context`. */
  function Renders(files: seq<OutputFile>, context: Context): (r: seq<Rendered>)
    ensures |r| == |files|
  {
    seq(|files|, i requires 0 <= i < |files| => Rendered(files[i].template, files[i].Output(), context))
  }

  /** Every file's directory exists. */
  predicate AllParentsExist(existing: set<string>, files: seq<OutputFile>)
  {
    forall j :: 0 <= j < |files| ==> ParentExists(existing, files[j].Output())
  }

  predicate AllKeyed(models: seq<Model>)
  {
    forall i :: 0 <= i < |models| ==> HasPrimaryKey(models[i].fields)
  }

  predicate SafeNames(projectName: string, models: seq<Model>)
  {
    IsSegment(projectName) && forall i :: 0 <= i < |models| ==> NameSegments(models[i].names)
  }

  // ---------------------------------------------------------------------
  // Properties of the write steps.

  lemma ThenAssoc(a: Outcome, b: Outcome, c: Outcome)
    ensures Then(Then(a, b), c) == Then(a, Then(b, c))
  {
  }

  /** Writing a list of model files is writing its two parts one after the
      other. */
  lemma {:induction false} WriteModelFilesAppend(existing: set<string>, model: Model, first: seq<OutputFile>, second: seq<OutputFile>, projectName: string)
    ensures WriteModelFiles(existing, model, first + second, projectName)
         == Then(WriteModelFiles(existing, model, first, projectName), WriteModelFiles(existing, model, second, projectName))
    decreases |first|
  {
    if first == [] {
      assert first + second == second;
    } else {
      assert (first + second)[0] == first[0];
      assert (first + second)[1..] == first[1..] + second;
      WriteModelFilesAppend(existing, model, first[1..], second, projectName);
      if ResolveKey(model.fields).Found? && ParentExists(existing, first[0].Output()) {
        var head := Outcome([Rendered(first[0].template, first[0].Output(), KeyContext(model, ResolveKey(model.fields).field, projectName))], true);
        ThenAssoc(head, WriteModelFiles(existing, model, first[1..], projectName), WriteModelFiles(existing, model, second, projectName));
      }
    }
  }

  /** The same for project-wide files. */
  lemma {:induction false} WriteProjectFilesAppend(existing: set<string>, first: seq<OutputFile>, second: seq<OutputFile>, models: seq<Model>, projectName: string)
    ensures WriteProjectFiles(existing, first + second, models, projectName)
         == Then(WriteProjectFiles(existing, first, models, projectName), WriteProjectFiles(existing, second, models, projectName))
    decreases |first|
  {
    if first == [] {
      assert first + second == second;
    } else {
      assert (first + second)[0] == first[0];
      assert (first + second)[1..] == first[1..] + second;
      WriteProjectFilesAppend(existing, first[1..], second, models, projectName);
      if ParentExists(existing, first[0].Output()) {
        var head := Outcome([Rendered(first[0].template, first[0].Output(), ProjectContext(models, projectName))], true);
        ThenAssoc(head, WriteProjectFiles(existing, first[1..], models, projectName), WriteProjectFiles(existing, second, models, projectName));
      }
    }
  }

  /** A model without primary key writes nothing and aborts the run. */
  lemma WriteModelFilesNoKey(existing: set<string>, model: Model, files: seq<OutputFile>, projectName: string)
    requires files != [] && !HasPrimaryKey(model.fields)
    ensures WriteModelFiles(existing, model, files, projectName) == Outcome([], false)
  {
    ResolveFailsIffNoKey(model.fields);
  }

  /** With a key and every directory present, all files are written in
      order, against the model's context. */
  lemma {:induction false} WriteModelFilesAll(existing: set<string>, model: Model, files: seq<OutputFile>, projectName: string)
    requires ResolveKey(model.fields).Found?
    requires AllParentsExist(existing, files)
    ensures WriteModelFiles(existing, model, files, projectName)
         == Outcome(Renders(files, KeyContext(model, ResolveKey(model.fields).field, projectName)), true)
    decreases |files|
  {
    if files != [] {
      WriteModelFilesAll(existing, model, files[1..], projectName);
      var context := KeyContext(model, ResolveKey(model.fields).field, projectName);
      assert Renders(files, context) == [Renders(files, context)[0]] + Renders(files[1..], context);
    }
  }

  /** With every directory present, all project-wide files are written in
      order. */
  lemma {:induction false} WriteProjectFilesAll(existing: set<string>, files: seq<OutputFile>, models: seq<Model>, projectName: string)
    requires AllParentsExist(existing, files)
    ensures WriteProjectFiles(existing, files, models, projectName) == Outcome(Renders(files, ProjectContext(models, projectName)), true)
    decreases |files|
  {
    if files != [] {
      WriteProjectFilesAll(existing, files[1..], models, projectName);
      var context := ProjectContext(models, projectName);
      assert Renders(files, context) == [Renders(files, context)[0]] + Renders(files[1..], context);
    }
  }

  /** Nothing is ever written into a directory that does not exist. This
      follows from the `open` guard alone; `GeneratedDirsReady` is what shows
      that the directories are in fact there. */
  lemma {:induction false} ModelWritesInExistingDirs(existing: set<string>, model: Model, files: seq<OutputFile>, projectName: string)
    ensures forall r :: r in WriteModelFiles(existing, model, files, projectName).written ==> ParentExists(existing, r.output)
    decreases |files|
  {
    if files != [] {
      ModelWritesInExistingDirs(existing, model, files[1..], projectName);
    }
  }

  /** The same guard-only fact for the shared files. */
  lemma {:induction false} ProjectWritesInExistingDirs(existing: set<string>, files: seq<OutputFile>, models: seq<Model>, projectName: string)
    ensures forall r :: r in WriteProjectFiles(existing, files, models, projectName).written ==> ParentExists(existing, r.output)
    decreases |files|
  {
    if files != [] {
      ProjectWritesInExistingDirs(existing, files[1..], models, projectName);
    }
  }

  // ---------------------------------------------------------------------
  // The model loop.

  /** The context of a model whose key resolves. */
  function ResolvedContext(model: Model, projectName: string): Context
    requires HasPrimaryKey(model.fields)
  {
    ResolveFailsIffNoKey(model.fields);
    KeyContext(model, ResolveKey(model.fields).field, projectName)
  }

  /** Every directory the run writes into exists. */
  predicate DirsReady(dirs: set<string>, models: seq<Model>, templatesPath: string, targetPath: string, projectName: string)
  {
    && (forall i :: 0 <= i < |models| ==> AllParentsExist(dirs, ModelFiles(templatesPath, targetPath, projectName, models[i].names)))
    && AllParentsExist(dirs, TestFiles(templatesPath, targetPath) + CommonProjectFiles(templatesPath, targetPath, projectName))
  }

  /** One model: with its directories present, it writes its eleven files
      when it has a key and raises before writing anything when it has
      none. */
  lemma ModelOutcomeCases(dirs: set<string>, model: Model, templatesPath: string, targetPath: string, projectName: string)
    requires AllParentsExist(dirs, ModelFiles(templatesPath, targetPath, projectName, model.names))
    ensures var o := ModelOutcome(dirs, model, templatesPath, targetPath, projectName);
      && o.ok == HasPrimaryKey(model.fields)
      && (o.ok ==> o.written == Renders(ModelFiles(templatesPath, targetPath, projectName, model.names), ResolvedContext(model, projectName)))
      && (!o.ok ==> o.written == [])
  {
    var files := ModelFiles(templatesPath, targetPath, projectName, model.names);
    assert |files| == 11;
    ResolveFailsIffNoKey(model.fields);
    if HasPrimaryKey(model.fields) {
      WriteModelFilesAll(dirs, model, files, projectName);
    } else {
      WriteModelFilesNoKey(dirs, model, files, projectName);
    }
  }

  /** Steps that all return normally, each writing eleven files, write
      them one block after the other. */
  lemma {:induction false} RunAllOk(steps: seq<Outcome>)
    requires forall i :: 0 <= i < |steps| ==> steps[i].ok && |steps[i].written| == 11
    ensures RunAll(steps).ok && |RunAll(steps).written| == 11 * |steps|
    ensures forall i :: 0 <= i < |steps| ==> RunAll(steps).written[11 * i..11 * i + 11] == steps[i].written
    decreases |steps|
  {
    if steps != [] {
      var n := |steps| - 1;
      var init := steps[..n];
      assert forall i :: 0 <= i < n ==> init[i] == steps[i];
      RunAllOk(init);
      var before := RunAll(init).written;
      var all := before + steps[n].written;
      forall i | 0 <= i < |steps|
        ensures all[11 * i..11 * i + 11] == steps[i].written
      {
        if i < n {
          assert all[11 * i..11 * i + 11] == before[11 * i..11 * i + 11];
        } else {
          assert 11 * i == |before| && 11 * i + 11 == |all|;
          assert all[|before|..|all|] == steps[n].written;
        }
      }
    }
  }

  /** Once a step has raised, later steps change nothing. */
  lemma {:induction false} RunAllStays(steps: seq<Outcome>, k: nat)
    requires k <= |steps| && !RunAll(steps[..k]).ok
    ensures RunAll(steps) == RunAll(steps[..k])
    decreases |steps|
  {
    if k < |steps| {
      var n := |steps| - 1;
      assert steps[..n][..k] == steps[..k];
      RunAllStays(steps[..n], k);
    } else {
      assert steps[..k] == steps;
    }
  }

  /** The first step that raises without writing ends the run with what the
      steps before it wrote. */
  lemma RunAllStopsAt(steps: seq<Outcome>, k: nat)
    requires k < |steps| && !steps[k].ok && steps[k].written == []
    requires forall i :: 0 <= i < k ==> steps[i].ok
    ensures !RunAll(steps).ok && RunAll(steps).written == RunAll(steps[..k]).written
  {
    assert steps[..k + 1][..k] == steps[..k] && steps[..k + 1][k] == steps[k];
    assert RunAll(steps[..k + 1]) == Then(RunAll(steps[..k]), steps[k]);
    RunAllPrefixOk(steps, k);
    assert RunAll(steps[..k]).written + [] == RunAll(steps[..k]).written;
    RunAllStays(steps, k + 1);
  }

  lemma {:induction false} RunAllPrefixOk(steps: seq<Outcome>, k: nat)
    requires k <= |steps| && forall i :: 0 <= i < k ==> steps[i].ok
    ensures RunAll(steps[..k]).ok
    decreases k
  {
    if k > 0 {
      assert steps[..k][..k - 1] == steps[..k - 1];
      RunAllPrefixOk(steps, k - 1);
    }
  }

  /** When every model has a key and its directories exist, the loop writes
      eleven files per model, model after model. */
  lemma ModelsOutcomeAll(dirs: set<string>, models: seq<Model>, templatesPath: string, targetPath: string, projectName: string)
    requires AllKeyed(models) && DirsReady(dirs, models, templatesPath, targetPath, projectName)
    ensures var o := ModelsOutcome(dirs, models, templatesPath, targetPath, projectName);
      && o.ok
      && |o.written| == 11 * |models|
      && forall i :: 0 <= i < |models| ==>
           o.written[11 * i..11 * i + 11] == Renders(ModelFiles(templatesPath, targetPath, projectName, models[i].names), ResolvedContext(models[i], projectName))
  {
    var steps := ModelSteps(dirs, models, templatesPath, targetPath, projectName);
    forall i | 0 <= i < |models|
      ensures steps[i].ok && steps[i].written == Renders(ModelFiles(templatesPath, targetPath, projectName, models[i].names), ResolvedContext(models[i], projectName))
      ensures |steps[i].written| == 11
    {
      ModelOutcomeCases(dirs, models[i], templatesPath, targetPath, projectName);
    }
    RunAllOk(steps);
  }

  /** The first model without a key stops the loop: the models before it
      have written their files, it and the models after it write nothing. */
  lemma ModelsOutcomeStopsAt(dirs: set<string>, models: seq<Model>, k: nat, templatesPath: string, targetPath: string, projectName: string)
    requires k < |models| && !HasPrimaryKey(models[k].fields)
    requires forall i :: 0 <= i < k ==> HasPrimaryKey(models[i].fields)
    requires DirsReady(dirs, models, templatesPath, targetPath, projectName)
    ensures var o := ModelsOutcome(dirs, models, templatesPath, targetPath, projectName);
      !o.ok && o.written == ModelsOutcome(dirs, models[..k], templatesPath, targetPath, projectName).written
  {
    var steps := ModelSteps(dirs, models, templatesPath, targetPath, projectName);
    forall i | 0 <= i < k
      ensures steps[i].ok
    {
      assert models[..k][i] == models[i];
      ModelOutcomeCases(dirs, models[i], templatesPath, targetPath, projectName);
    }
    ModelOutcomeCases(dirs, models[k], templatesPath, targetPath, projectName);
    RunAllStopsAt(steps, k);
    assert steps[..k] == ModelSteps(dirs, models[..k], templatesPath, targetPath, projectName);
  }

  /** Readiness of a run's directories carries over to a prefix of its
      models. */
  lemma DirsReadyPrefix(dirs: set<string>, models: seq<Model>, k: nat, templatesPath: string, targetPath: string, projectName: string)
    requires k <= |models| && DirsReady(dirs, models, templatesPath, targetPath, projectName)
    ensures DirsReady(dirs, models[..k], templatesPath, targetPath, projectName)
  {
    forall i | 0 <= i < k
      ensures AllParentsExist(dirs, ModelFiles(templatesPath, targetPath, projectName, models[..k][i].names))
    {
      assert models[..k][i] == models[i];
    }
  }

  // ---------------------------------------------------------------------
  // The whole run.

  /** With the target directory present and names that are single path
      segments, `_mk_folder_structure` leaves every directory the run writes
      into in place. */
  lemma GeneratedDirsReady(existing: set<string>, models: seq<Model>, templatesPath: string, targetPath: string, projectName: string)
    requires targetPath in existing && SafeNames(projectName, models)
    ensures DirsReady(GeneratedDirs(existing, models, targetPath, projectName), models, templatesPath, targetPath, projectName)
  {
    var dirs := GeneratedDirs(existing, models, targetPath, projectName);
    var req := RequestedDirs(targetPath, ProjectDir(targetPath, projectName), models);
    assert PluralSegments(models) by {
      forall i | 0 <= i < |models| ensures IsSegment(models[i].names.pluralName) {
        assert NameSegments(models[i].names);
      }
    }
    FolderStructureCreatesAll(existing, targetPath, projectName, models);
    assert dirs == existing + Elems(req);
    forall i | 0 <= i < |models|
      ensures AllParentsExist(dirs, ModelFiles(templatesPath, targetPath, projectName, models[i].names))
    {
      ModelFilesInRequestedDirs(templatesPath, targetPath, projectName, models, i);
      LandedFilesReady(ModelFiles(templatesPath, targetPath, projectName, models[i].names), req, dirs);
    }
    ProjectFilesInRequestedDirs(templatesPath, targetPath, projectName, models);
    LandedFilesReady(TestFiles(templatesPath, targetPath) + CommonProjectFiles(templatesPath, targetPath, projectName), req, dirs);
  }

  /** Files that land in requested directories can be written once those
      directories exist. */
  lemma LandedFilesReady(files: seq<OutputFile>, req: seq<string>, dirs: set<string>)
    requires LandsIn(files, req) && Elems(req) <= dirs
    ensures AllParentsExist(dirs, files)
  {
    forall j | 0 <= j < |files| ensures ParentExists(dirs, files[j].Output()) {
      assert files[j].dir in Elems(req);
    }
  }

  /** A run with the target directory present and single-segment names
      returns normally exactly when every model has a primary key; it then
      writes 11 files per model, in model order, followed by the two
      shared test files and the three project-wide files. */
  lemma GenApiFilesSucceeds(existing: set<string>, models: seq<Model>, templatesPath: string, targetPath: string, projectName: string)
    requires targetPath in existing && SafeNames(projectName, models)
    ensures var o := GenApiOutcome(existing, models, templatesPath, targetPath, projectName);
      && (o.ok <==> AllKeyed(models))
      && (o.ok ==>
           && |o.written| == 11 * |models| + 5
           && (forall i :: 0 <= i < |models| ==>
                 o.written[11 * i..11 * i + 11] == Renders(ModelFiles(templatesPath, targetPath, projectName, models[i].names), ResolvedContext(models[i], projectName)))
           && o.written[11 * |models|..] == Renders(TestFiles(templatesPath, targetPath) + CommonProjectFiles(templatesPath, targetPath, projectName), ProjectContext(models, projectName)))
  {
    var dirs := GeneratedDirs(existing, models, targetPath, projectName);
    GeneratedDirsReady(existing, models, templatesPath, targetPath, projectName);
    var project := ProjectFilesOutcome(dirs, models, templatesPath, targetPath, projectName);
    ProjectFilesAll(dirs, models, templatesPath, targetPath, projectName);
    var loop := ModelsOutcome(dirs, models, templatesPath, targetPath, projectName);
    assert GenApiOutcome(existing, models, templatesPath, targetPath, projectName) == Then(loop, project);
    if AllKeyed(models) {
      ModelsOutcomeAll(dirs, models, templatesPath, targetPath, projectName);
      BlocksThenTail(loop.written, project.written, |models|);
    } else {
      var k := FirstKeyless(models);
      ModelsOutcomeStopsAt(dirs, models, k, templatesPath, targetPath, projectName);
    }
  }

  /** Appending to a log of `n` eleven-file blocks leaves the blocks in
      place. */
  lemma BlocksThenTail(blocks: seq<Rendered>, tail: seq<Rendered>, n: nat)
    requires |blocks| == 11 * n
    ensures (blocks + tail)[11 * n..] == tail
    ensures forall i :: 0 <= i < n ==> (blocks + tail)[11 * i..11 * i + 11] == blocks[11 * i..11 * i + 11]
  {
    forall i | 0 <= i < n
      ensures (blocks + tail)[11 * i..11 * i + 11] == blocks[11 * i..11 * i + 11]
    {
    }
  }

  /** The shared files at the end of a run: `_gen_test_file`, then
      `_gen_common_project_files`. */
  function ProjectFilesOutcome(dirs: set<string>, models: seq<Model>, templatesPath: string, targetPath: string, projectName: string): Outcome
  {
    Then(WriteProjectFiles(dirs, TestFiles(templatesPath, targetPath), models, projectName),
         WriteProjectFiles(dirs, CommonProjectFiles(templatesPath, targetPath, projectName), models, projectName))
  }

  /** With their directories present, the five shared files are all
      written, in order, against the whole model list. */
  lemma ProjectFilesAll(dirs: set<string>, models: seq<Model>, templatesPath: string, targetPath: string, projectName: string)
    requires DirsReady(dirs, models, templatesPath, targetPath, projectName)
    ensures ProjectFilesOutcome(dirs, models, templatesPath, targetPath, projectName)
         == Outcome(Renders(TestFiles(templatesPath, targetPath) + CommonProjectFiles(templatesPath, targetPath, projectName), ProjectContext(models, projectName)), true)
  {
    var tests := TestFiles(templatesPath, targetPath);
    var common := CommonProjectFiles(templatesPath, targetPath, projectName);
    WriteProjectFilesAppend(dirs, tests, common, models, projectName);
    WriteProjectFilesAll(dirs, tests + common, models, projectName);
  }

  /** A run stops at the first model without a primary key: the models
      before it have all their files written, nothing after them is. */
  lemma GenApiFilesStopsAtKeylessModel(existing: set<string>, models: seq<Model>, k: nat, templatesPath: string, targetPath: string, projectName: string)
    requires targetPath in existing && SafeNames(projectName, models)
    requires k < |models| && !HasPrimaryKey(models[k].fields)
    requires forall i :: 0 <= i < k ==> HasPrimaryKey(models[i].fields)
    ensures var o := GenApiOutcome(existing, models, templatesPath, targetPath, projectName);
      && !o.ok
      && |o.written| == 11 * k
      && forall i :: 0 <= i < k ==>
           o.written[11 * i..11 * i + 11] == Renders(ModelFiles(templatesPath, targetPath, projectName, models[i].names), ResolvedContext(models[i], projectName))
  {
    var dirs := GeneratedDirs(existing, models, targetPath, projectName);
    GeneratedDirsReady(existing, models, templatesPath, targetPath, projectName);
    ModelsOutcomeStopsAt(dirs, models, k, templatesPath, targetPath, projectName);
    var loop := ModelsOutcome(dirs, models, templatesPath, targetPath, projectName);
    assert GenApiOutcome(existing, models, templatesPath, targetPath, projectName)
        == Then(loop, ProjectFilesOutcome(dirs, models, templatesPath, targetPath, projectName)) == loop;
    var init := models[..k];
    DirsReadyPrefix(dirs, models, k, templatesPath, targetPath, projectName);
    ModelsOutcomeAll(dirs, init, templatesPath, targetPath, projectName);
    var written := ModelsOutcome(dirs, init, templatesPath, targetPath, projectName).written;
    forall i | 0 <= i < k
      ensures written[11 * i..11 * i + 11] == Renders(ModelFiles(templatesPath, targetPath, projectName, models[i].names), ResolvedContext(models[i], projectName))
    {
      assert init[i] == models[i];
    }
  }

  /** Whatever the inputs, nothing is written into a directory that does not
      exist after `_mk_folder_structure`. This holds by the `open` guard;
      that the writes do happen is `GeneratedDirsReady` and
      `GenApiFilesSucceeds`. */
  lemma GenApiFilesWritesIntoExistingDirs(existing: set<string>, models: seq<Model>, templatesPath: string, targetPath: string, projectName: string)
    ensures var dirs := GeneratedDirs(existing, models, targetPath, projectName);
      forall r :: r in GenApiOutcome(existing, models, templatesPath, targetPath, projectName).written ==> ParentExists(dirs, r.output)
  {
    var dirs := GeneratedDirs(existing, models, targetPath, projectName);
    ModelsWritesInExistingDirs(dirs, models, templatesPath, targetPath, projectName);
    ProjectWritesInExistingDirs(dirs, TestFiles(templatesPath, targetPath), models, projectName);
    ProjectWritesInExistingDirs(dirs, CommonProjectFiles(templatesPath, targetPath, projectName), models, projectName);
  }

  /** Running the generator a second time, on the directories the first run
      left, creates nothing new and writes the same files from the same
      templates and contexts, so the final file contents are the same. */
  lemma GenApiIdempotent(existing: set<string>, models: seq<Model>, templatesPath: string, targetPath: string, projectName: string)
    requires targetPath in existing && SafeNames(projectName, models)
    ensures var dirs := GeneratedDirs(existing, models, targetPath, projectName);
      GeneratedDirs(dirs, models, targetPath, projectName) == dirs
    ensures GenApiOutcome(GeneratedDirs(existing, models, targetPath, projectName), models, templatesPath, targetPath, projectName)
         == GenApiOutcome(existing, models, templatesPath, targetPath, projectName)
  {
    assert PluralSegments(models) by {
      forall i | 0 <= i < |models| ensures IsSegment(models[i].names.pluralName) {
        assert NameSegments(models[i].names);
      }
    }
    FolderStructureIdempotent(existing, targetPath, projectName, models);
  }

  lemma ModelsWritesInExistingDirs(dirs: set<string>, models: seq<Model>, templatesPath: string, targetPath: string, projectName: string)
    ensures forall r :: r in ModelsOutcome(dirs, models, templatesPath, targetPath, projectName).written ==> ParentExists(dirs, r.output)
  {
    var steps := ModelSteps(dirs, models, templatesPath, targetPath, projectName);
    forall i | 0 <= i < |steps|
      ensures forall r :: r in steps[i].written ==> ParentExists(dirs, r.output)
    {
      ModelWritesInExistingDirs(dirs, models[i], ModelFiles(templatesPath, targetPath, projectName, models[i].names), projectName);
    }
    RunAllWritesFromSteps(steps, dirs);
  }

  lemma {:induction false} RunAllWritesFromSteps(steps: seq<Outcome>, dirs: set<string>)
    requires forall i :: 0 <= i < |steps| ==> forall r :: r in steps[i].written ==> ParentExists(dirs, r.output)
    ensures forall r :: r in RunAll(steps).written ==> ParentExists(dirs, r.output)
    decreases |steps|
  {
    if steps != [] {
      var n := |steps| - 1;
      assert forall i :: 0 <= i < n ==> steps[..n][i] == steps[i];
      RunAllWritesFromSteps(steps[..n], dirs);
    }
  }

  /** The index of the first model without a primary key. */
  function FirstKeyless(models: seq<Model>): (k: nat)
    requires !AllKeyed(models)
    ensures k < |models| && !HasPrimaryKey(models[k].fields)
    ensures forall i :: 0 <= i < k ==> HasPrimaryKey(models[i].fields)
  {
    if !HasPrimaryKey(models[0].fields) then 0
    else
      1 + FirstKeyless(models[1..])
  }

  // ---------------------------------------------------------------------
  // Lemmas the methods below use to sequence their steps.

  lemma {:induction false} WalkGroupsSnoc(existing: set<string>, groups: seq<seq<string>>, group: seq<string>)
    ensures WalkGroups(existing, groups + [group]) == Walk(WalkGroups(existing, groups), group)
    decreases |groups|
  {
    if groups == [] {
      assert groups + [group] == [group];
      assert [group][1..] == [];
    } else {
      assert (groups + [group])[1..] == groups[1..] + [group];
      WalkGroupsSnoc(Walk(existing, groups[0]), groups[1..], group);
    }
  }

  lemma FolderGroupsPrefix(targetPath: string, projectDir: string, models: seq<Model>, i: nat)
    requires i < |models|
    ensures |FolderGroups(targetPath, projectDir, models)| == |models| + 1
    ensures FolderGroups(targetPath, projectDir, models)[..i + 2]
         == FolderGroups(targetPath, projectDir, models)[..i + 1] + [ModelDirs(targetPath, projectDir, models[i])]
  {
    ModelDirGroupsSize(targetPath, projectDir, models);
  }

  lemma WriteModelFilesSnoc(existing: set<string>, model: Model, files: seq<OutputFile>, i: nat, projectName: string)
    requires i < |files|
    ensures WriteModelFiles(existing, model, files[..i + 1], projectName)
         == Then(WriteModelFiles(existing, model, files[..i], projectName), WriteModelFiles(existing, model, [files[i]], projectName))
  {
    assert files[..i + 1] == files[..i] + [files[i]];
    WriteModelFilesAppend(existing, model, files[..i], [files[i]], projectName);
  }

  lemma WriteProjectFilesSnoc(existing: set<string>, files: seq<OutputFile>, i: nat, models: seq<Model>, projectName: string)
    requires i < |files|
    ensures WriteProjectFiles(existing, files[..i + 1], models, projectName)
         == Then(WriteProjectFiles(existing, files[..i], models, projectName), WriteProjectFiles(existing, [files[i]], models, projectName))
  {
    assert files[..i + 1] == files[..i] + [files[i]];
    WriteProjectFilesAppend(existing, files[..i], [files[i]], models, projectName);
  }

  lemma WriteModelFilesStops(existing: set<string>, model: Model, files: seq<OutputFile>, k: nat, projectName: string)
    requires k <= |files| && !WriteModelFiles(existing, model, files[..k], projectName).ok
    ensures WriteModelFiles(existing, model, files, projectName) == WriteModelFiles(existing, model, files[..k], projectName)
  {
    assert files[..k] + files[k..] == files;
    WriteModelFilesAppend(existing, model, files[..k], files[k..], projectName);
  }

  lemma WriteProjectFilesStops(existing: set<string>, files: seq<OutputFile>, k: nat, models: seq<Model>, projectName: string)
    requires k <= |files| && !WriteProjectFiles(existing, files[..k], models, projectName).ok
    ensures WriteProjectFiles(existing, files, models, projectName) == WriteProjectFiles(existing, files[..k], models, projectName)
  {
    assert files[..k] + files[k..] == files;
    WriteProjectFilesAppend(existing, files[..k], files[k..], models, projectName);
  }

  lemma RunAllSnoc(steps: seq<Outcome>, i: nat)
    requires i < |steps|
    ensures RunAll(steps[..i + 1]) == Then(RunAll(steps[..i]), steps[i])
  {
    assert steps[..i + 1][..i] == steps[..i];
  }

  /** A model's iteration is its route file, then its domain files, then
      its test files. */
  lemma ModelOutcomeParts(dirs: set<string>, model: Model, templatesPath: string, targetPath: string, projectName: string)
    ensures ModelOutcome(dirs, model, templatesPath, targetPath, projectName)
         == Then(Then(WriteModelFiles(dirs, model, RouteFiles(templatesPath, targetPath, projectName, model.names), projectName),
                      WriteModelFiles(dirs, model, DomainFiles(templatesPath, targetPath, projectName, model.names), projectName)),
                 WriteModelFiles(dirs, model, ModelTestFiles(templatesPath, targetPath, model.names), projectName))
  {
    var route := RouteFiles(templatesPath, targetPath, projectName, model.names);
    var domain := DomainFiles(templatesPath, targetPath, projectName, model.names);
    var tests := ModelTestFiles(templatesPath, targetPath, model.names);
    WriteModelFilesAppend(dirs, model, route + domain, tests, projectName);
    WriteModelFilesAppend(dirs, model, route, domain, projectName);
  }

  /** `gen_api_files` is the model loop over the generated folders, then
      the shared test files, then the common project files. */
  lemma GenApiOutcomeParts(existing: set<string>, models: seq<Model>, templatesPath: string, targetPath: string, projectName: string)
    ensures GenApiOutcome(existing, models, templatesPath, targetPath, projectName)
         == Then(ModelsOutcome(GeneratedDirs(existing, models, targetPath, projectName), models, templatesPath, targetPath, projectName),
                 Then(WriteProjectFiles(GeneratedDirs(existing, models, targetPath, projectName), TestFiles(templatesPath, targetPath), models, projectName),
                      WriteProjectFiles(GeneratedDirs(existing, models, targetPath, projectName), CommonProjectFiles(templatesPath, targetPath, projectName), models, projectName)))
  {
  }

  /** What a successful step writes is followed by what the next writes. */
  lemma Sequenced(log: seq<Rendered>, first: Outcome, next: Outcome)
    requires first.ok
    ensures log + first.written + next.written == log + Then(first, next).written
    ensures Then(first, next).ok == next.ok
  {
  }

  lemma Stopped(first: Outcome, next: Outcome)
    requires !first.ok
    ensures Then(first, next) == first
  {
  }

  // ---------------------------------------------------------------------
  // The generator, acting on the filesystem.

  /** The part of the filesystem the generator touches: the paths that exist
      and, in order, the files it has rendered and written. */
  class FileSystem {
    var paths: set<string>
    var written: seq<Rendered>

    constructor (existing: set<string>)
      ensures paths == existing && written == []
    {
      paths := existing;
      written := [];
    }

    /** `_mk_dir(*targets)`. */
    method MkDir(targets: seq<string>)
      modifies this
      ensures paths == Walk(old(paths), targets)
      ensures written == old(written)
    {
      var i := 0;
      while i < |targets|
        invariant 0 <= i <= |targets|
        invariant Walk(old(paths), targets) == Walk(paths, targets[i..])
        invariant written == old(written)
      {
        var target := targets[i];
        assert targets[i..][0] == target && targets[i..][1..] == targets[i + 1..];
        if target !in paths {
          if !ParentExists(paths, target) {
            // os.mkdir raises OSError: give up on the remaining targets
            return;
          }
          paths := paths + {target};
        }
        i := i + 1;
      }
    }

    /** `_mk_folder_structure(target_path, project_dir, models)`. */
    method MkFolderStructure(targetPath: string, projectDir: string, models: seq<Model>)
      modifies this
      ensures paths == WalkGroups(old(paths), FolderGroups(targetPath, projectDir, models))
      ensures written == old(written)
    {
      var groups := FolderGroups(targetPath, projectDir, models);
      ModelDirGroupsSize(targetPath, projectDir, models);
      MkDir(FixedDirs(targetPath, projectDir));
      assert groups[..1] == [FixedDirs(targetPath, projectDir)];
      assert [FixedDirs(targetPath, projectDir)][1..] == [];
      var i := 0;
      while i < |models|
        invariant 0 <= i <= |models|
        invariant paths == WalkGroups(old(paths), groups[..i + 1])
        invariant written == old(written)
      {
        FolderGroupsPrefix(targetPath, projectDir, models, i);
        WalkGroupsSnoc(old(paths), groups[..i + 1], ModelDirs(targetPath, projectDir, models[i]));
        MkDir(ModelDirs(targetPath, projectDir, models[i]));
        i := i + 1;
      }
      assert groups[..i + 1] == groups;
    }

    /** `_gen_model_file`: resolve the key, render, write. */
    method GenModelFile(model: Model, file: OutputFile, projectName: string) returns (ok: bool)
      modifies this
      ensures paths == old(paths)
      ensures written == old(written) + WriteModelFiles(paths, model, [file], projectName).written
      ensures ok == WriteModelFiles(paths, model, [file], projectName).ok
    {
      var key := GetPrimaryKey(model);
      if key.NoPrimaryKey? {
        // possible_keys[0] raises
        return false;
      }
      if !ParentExists(paths, file.Output()) {
        // open(target_path, "w") raises
        return false;
      }
      written := written + [Rendered(file.template, file.Output(), KeyContext(model, key.field, projectName))];
      ok := true;
    }

    /** `_gen_file`: render against the whole model list, write. */
    method GenFile(file: OutputFile, projectName: string, models: seq<Model>) returns (ok: bool)
      modifies this
      ensures paths == old(paths)
      ensures written == old(written) + WriteProjectFiles(paths, [file], models, projectName).written
      ensures ok == WriteProjectFiles(paths, [file], models, projectName).ok
    {
      if !ParentExists(paths, file.Output()) {
        return false;
      }
      written := written + [Rendered(file.template, file.Output(), ProjectContext(models, projectName))];
      ok := true;
    }

    /** The source's sequence of `_gen_model_file` calls over `files`, each
        call raising out of the sequence. */
    method GenModelFiles(model: Model, files: seq<OutputFile>, projectName: string) returns (ok: bool)
      modifies this
      ensures paths == old(paths)
      ensures written == old(written) + WriteModelFiles(paths, model, files, projectName).written
      ensures ok == WriteModelFiles(paths, model, files, projectName).ok
    {
      ghost var dirs := paths;
      var i := 0;
      while i < |files|
        invariant 0 <= i <= |files| && paths == dirs
        invariant WriteModelFiles(dirs, model, files[..i], projectName).ok
        invariant written == old(written) + WriteModelFiles(dirs, model, files[..i], projectName).written
      {
        WriteModelFilesSnoc(dirs, model, files, i, projectName);
        ok := GenModelFile(model, files[i], projectName);
        if !ok {
          WriteModelFilesStops(dirs, model, files, i + 1, projectName);
          return;
        }
        Sequenced(old(written), WriteModelFiles(dirs, model, files[..i], projectName), WriteModelFiles(dirs, model, [files[i]], projectName));
        i := i + 1;
      }
      assert files[..i] == files;
      ok := true;
    }

    /** The source's sequence of `_gen_file` calls over `files`. */
    method GenFiles(files: seq<OutputFile>, projectName: string, models: seq<Model>) returns (ok: bool)
      modifies this
      ensures paths == old(paths)
      ensures written == old(written) + WriteProjectFiles(paths, files, models, projectName).written
      ensures ok == WriteProjectFiles(paths, files, models, projectName).ok
    {
      ghost var dirs := paths;
      var i := 0;
      while i < |files|
        invariant 0 <= i <= |files| && paths == dirs
        invariant WriteProjectFiles(dirs, files[..i], models, projectName).ok
        invariant written == old(written) + WriteProjectFiles(dirs, files[..i], models, projectName).written
      {
        WriteProjectFilesSnoc(dirs, files, i, models, projectName);
        ok := GenFile(files[i], projectName, models);
        if !ok {
          WriteProjectFilesStops(dirs, files, i + 1, models, projectName);
          return;
        }
        Sequenced(old(written), WriteProjectFiles(dirs, files[..i], models, projectName), WriteProjectFiles(dirs, [files[i]], models, projectName));
        i := i + 1;
      }
      assert files[..i] == files;
      ok := true;
    }

    /** `_gen_model_route_file`. */
    method GenModelRouteFile(model: Model, templatesPath: string, targetPath: string, projectName: string) returns (ok: bool)
      modifies this
      ensures paths == old(paths)
      ensures written == old(written) + WriteModelFiles(paths, model, RouteFiles(templatesPath, targetPath, projectName, model.names), projectName).written
      ensures ok == WriteModelFiles(paths, model, RouteFiles(templatesPath, targetPath, projectName, model.names), projectName).ok
    {
      ok := GenModelFiles(model, RouteFiles(templatesPath, targetPath, projectName, model.names), projectName);
    }

    /** `_gen_model_domain_files`. */
    method GenModelDomainFiles(model: Model, templatesPath: string, targetPath: string, projectName: string) returns (ok: bool)
      modifies this
      ensures paths == old(paths)
      ensures written == old(written) + WriteModelFiles(paths, model, DomainFiles(templatesPath, targetPath, projectName, model.names), projectName).written
      ensures ok == WriteModelFiles(paths, model, DomainFiles(templatesPath, targetPath, projectName, model.names), projectName).ok
    {
      ok := GenModelFiles(model, DomainFiles(templatesPath, targetPath, projectName, model.names), projectName);
    }

    /** `_gen_model_test_files`. */
    method GenModelTestFiles(model: Model, templatesPath: string, targetPath: string, projectName: string) returns (ok: bool)
      modifies this
      ensures paths == old(paths)
      ensures written == old(written) + WriteModelFiles(paths, model, ModelTestFiles(templatesPath, targetPath, model.names), projectName).written
      ensures ok == WriteModelFiles(paths, model, ModelTestFiles(templatesPath, targetPath, model.names), projectName).ok
    {
      ok := GenModelFiles(model, ModelTestFiles(templatesPath, targetPath, model.names), projectName);
    }

    /** One iteration of the model loop of `gen_api_files`: the route
        file, the domain files, the test files, an exception in any of
        them ending the run. */
    method GenModel(model: Model, templatesPath: string, targetPath: string, projectName: string) returns (ok: bool)
      modifies this
      ensures paths == old(paths)
      ensures written == old(written) + ModelOutcome(paths, model, templatesPath, targetPath, projectName).written
      ensures ok == ModelOutcome(paths, model, templatesPath, targetPath, projectName).ok
    {
      ModelOutcomeParts(paths, model, templatesPath, targetPath, projectName);
      ghost var route := WriteModelFiles(paths, model, RouteFiles(templatesPath, targetPath, projectName, model.names), projectName);
      ghost var domain := WriteModelFiles(paths, model, DomainFiles(templatesPath, targetPath, projectName, model.names), projectName);
      ghost var tests := WriteModelFiles(paths, model, ModelTestFiles(templatesPath, targetPath, model.names), projectName);
      ok := GenModelRouteFile(model, templatesPath, targetPath, projectName);
      if !ok {
        Stopped(route, domain);
        Stopped(Then(route, domain), tests);
        return;
      }
      ok := GenModelDomainFiles(model, templatesPath, targetPath, projectName);
      Sequenced(old(written), route, domain);
      if !ok {
        Stopped(Then(route, domain), tests);
        return;
      }
      ok := GenModelTestFiles(model, templatesPath, targetPath, projectName);
      Sequenced(old(written), Then(route, domain), tests);
    }

    /** The `for model in models` loop of `gen_api_files`, run once the
        folders exist. */
    method GenModels(models: seq<Model>, templatesPath: string, targetPath: string, projectName: string) returns (ok: bool)
      modifies this
      ensures paths == old(paths)
      ensures written == old(written) + ModelsOutcome(paths, models, templatesPath, targetPath, projectName).written
      ensures ok == ModelsOutcome(paths, models, templatesPath, targetPath, projectName).ok
    {
      ghost var dirs := paths;
      ghost var steps := ModelSteps(dirs, models, templatesPath, targetPath, projectName);
      var i := 0;
      while i < |models|
        invariant 0 <= i <= |models| && paths == dirs
        invariant RunAll(steps[..i]).ok
        invariant written == old(written) + RunAll(steps[..i]).written
      {
        ok := GenModel(models[i], templatesPath, targetPath, projectName);
        assert steps[i] == ModelOutcome(dirs, models[i], templatesPath, targetPath, projectName);
        RunAllSnoc(steps, i);
        Sequenced(old(written), RunAll(steps[..i]), steps[i]);
        if !ok {
          RunAllStays(steps, i + 1);
          return;
        }
        i := i + 1;
      }
      assert steps[..i] == steps;
      ok := true;
    }

    /** `_gen_test_file`. */
    method GenTestFile(models: seq<Model>, templatesPath: string, targetPath: string, projectName: string) returns (ok: bool)
      modifies this
      ensures paths == old(paths)
      ensures written == old(written) + WriteProjectFiles(paths, TestFiles(templatesPath, targetPath), models, projectName).written
      ensures ok == WriteProjectFiles(paths, TestFiles(templatesPath, targetPath), models, projectName).ok
    {
      ok := GenFiles(TestFiles(templatesPath, targetPath), projectName, models);
    }

    /** `_gen_common_project_files`. */
    method GenCommonProjectFiles(models: seq<Model>, templatesPath: string, targetPath: string, projectName: string) returns (ok: bool)
      modifies this
      ensures paths == old(paths)
      ensures written == old(written) + WriteProjectFiles(paths, CommonProjectFiles(templatesPath, targetPath, projectName), models, projectName).written
      ensures ok == WriteProjectFiles(paths, CommonProjectFiles(templatesPath, targetPath, projectName), models, projectName).ok
    {
      ok := GenFiles(CommonProjectFiles(templatesPath, targetPath, projectName), projectName, models);
    }

    /** `gen_api_files(models, templates_path, target_path, project_name)`;
        `ok` is false where the source raises. */
    method GenApiFiles(models: seq<Model>, templatesPath: string, targetPath: string, projectName: string) returns (ok: bool)
      modifies this
      ensures paths == GeneratedDirs(old(paths), models, targetPath, projectName)
      ensures written == old(written) + GenApiOutcome(old(paths), models, templatesPath, targetPath, projectName).written
      ensures ok == GenApiOutcome(old(paths), models, templatesPath, targetPath, projectName).ok
    {
      MkFolderStructure(targetPath, ProjectDir(targetPath, projectName), models);
      GenApiOutcomeParts(old(paths), models, templatesPath, targetPath, projectName);
      ghost var loop := ModelsOutcome(paths, models, templatesPath, targetPath, projectName);
      ghost var tests := WriteProjectFiles(paths, TestFiles(templatesPath, targetPath), models, projectName);
      ghost var common := WriteProjectFiles(paths, CommonProjectFiles(templatesPath, targetPath, projectName), models, projectName);
      ghost var before := written;
      ok := GenModels(models, templatesPath, targetPath, projectName);
      if !ok {
        Stopped(loop, Then(tests, common));
        return;
      }
      ok := GenTestFile(models, templatesPath, targetPath, projectName);
      Sequenced(before, loop, tests);
      if !ok {
        Stopped(tests, common);
        return;
      }
      ok := GenCommonProjectFiles(models, templatesPath, targetPath, projectName);
      Sequenced(before, loop, Then(tests, common));
      Sequenced(before + loop.written, tests, common);
    }
  }
}
