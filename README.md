# fastapi-code-generator: the file generator, in Dafny

This project models the core of fastapi-code-generator, the file generator
`FastApiGenerator.gen_api_files`. The generator takes a list of table models
(names and fields) and scaffolds a FastAPI project on disk, in four stages:

1. It creates the folder structure with successive `_mk_dir` calls. The
   first call makes six fixed directories. Each model then gets its own call
   for two directories.
2. For every model, in order, it renders eleven files against the model and
   its resolved primary key:
   - one router file;
   - four domain files: services, queries, model and schemas;
   - six test files.
3. It renders two shared test files, `utils.py` and `conftest.py`.
4. It renders three project-wide files: the service factory, the base
   schemas and the package `__init__.py`.

Python exceptions have these counterparts in the model:

- A model without a primary key makes `_get_primary_key` index an empty
  list. The model reports this as `NoPrimaryKey`.
- An output file whose directory is missing makes `open(..., "w")` raise.
  The model checks that the parent directory exists.
- Either exception ends the whole run. The model records this as an
  `Outcome` whose `ok` is false.

An `os.mkdir` failure, by contrast, is caught inside `_mk_dir`. It ends only
that call.

The project has these modules:

- `Schema` (`schema.dfy`): the model, field, type and names records that the
  generator reads.
- `Paths` (`paths.dfy`):
  - path joining `Join(dir, name)`, the text `dir + "/" + name` that the
    source's `'{0}/{1}'.format` strings produce. A format string with several
    segments (`'{0}/domain/{1}'`) becomes nested joins, and a template path
    becomes the literal concatenation that gives the same text;
  - the parent of a path (the text before its last `/`);
  - the proof that joining a single segment onto a directory gives a path
    whose parent is that directory.
- `PrimaryKey` (`primary_key.dfy`): `_get_primary_key`, written as the
  source's loop with an early return. It is proved against the resolution
  rule `ResolveKey`. The preferred type list is kept verbatim, including its
  misspelled `"interger"`.
- `Folders` (`folders.dfy`):
  - `_mk_dir` as the function `Walk` over the set of existing paths: a
    present path is skipped, a missing one is created, and the first
    creation whose parent is missing ends the call;
  - the directory lists that `_mk_folder_structure` passes to its calls;
  - the proof that the folder structure creates exactly the requested
    directories when three things hold: the target directory exists, the
    project name is a single path segment (no `/`), and every model's plural
    name is one as well. Without these conditions a creation can fail. For
    example, the project name `a/b` makes `os.mkdir` of `{target}/src/a/b`
    fail, so that call stops before `routers` and `tests` are made, and
    every later write raises.
- `Layout` (`layout.dfy`): the template and output paths of every rendered
  file, with their directories and file names, and (as lemmas) where the
  files land.
- `Generator` (`generator.dfy`):
  - the run as a function of the existing paths (`GenApiOutcome`), with its
    properties as lemmas;
  - the class `FileSystem`, whose fields are the set of existing paths and
    the log of written files. There is one method per source function, and
    each is proved to leave the state the functions describe. Three further
    methods have no source function of their own. `GenModelFiles` and
    `GenFiles` stand for the runs of consecutive `_gen_model_file` and
    `_gen_file` calls in the source's helpers, and `GenModel` is the body of
    the model loop in `gen_api_files`.

Rendering (Mako) is an uninterpreted step. Each written file is recorded as
a `Rendered` value: the template path, the output path and the context it
was rendered against. A model's context holds the model, the key's name, the
key's type name and the project name. A shared file's context holds the
whole model list and the project name.

## Model

| member | source | states |
|---|---|---|
| PrimaryKey.GetPrimaryKey | src/fastapi_code_generator/file_generators/fastapi_generator.py:200-218 | The scan returns exactly the resolution rule's answer. It finds a key iff some field is flagged as primary key, and a found key is a flagged field of the model. |
| PrimaryKey.ResolveKey | src/fastapi_code_generator/file_generators/fastapi_generator.py:209-218 | Definition of the resolution rule: the first preferred-type key, otherwise the first key, otherwise failure. `ResolvesFirstPreferred`, `ResolvesFirstKey` and `ResolveFailsIffNoKey` characterise it. |
| PrimaryKey.IsPreferredKey | src/fastapi_code_generator/file_generators/fastapi_generator.py:210-213 | Definition of a flagged field whose type name is in the verbatim list `["uuid", "interger"]`. `ResolvesFirstPreferred` and `IntegerKeyNotPreferred` characterise it. |
| PrimaryKey.FirstPreferredKey | src/fastapi_code_generator/file_generators/fastapi_generator.py:211-214 | Definition of the early return: the first flagged field of preferred type, if any. `ResolvesFirstPreferred` characterises it. |
| PrimaryKey.KeyFields | src/fastapi_code_generator/file_generators/fastapi_generator.py:209-216 | Definition of the collected `possible_keys`. `KeyFieldsAreKeys` and `KeyFieldsHead` characterise it. |
| PrimaryKey.ResolvesFirstPreferred | src/fastapi_code_generator/file_generators/fastapi_generator.py:209-214 | The first flagged field whose type is `uuid` or `interger` is the key, whatever non-preferred keys come before it. |
| PrimaryKey.ResolvesFirstKey | src/fastapi_code_generator/file_generators/fastapi_generator.py:211-218 | With no preferred-type key, the key is the flagged field of smallest index. |
| PrimaryKey.ResolvedIsKey | src/fastapi_code_generator/file_generators/fastapi_generator.py:212-218 | A resolved key is always a field of the model that is flagged as primary key. |
| PrimaryKey.ResolveFailsIffNoKey | src/fastapi_code_generator/file_generators/fastapi_generator.py:218 | Resolution fails (the source's `possible_keys[0]` on an empty list) exactly when no field is flagged. |
| PrimaryKey.KeyFieldsAreKeys | src/fastapi_code_generator/file_generators/fastapi_generator.py:209-216 | The collected `possible_keys` hold every flagged field of the model and nothing else; the list is empty iff no field is flagged. |
| PrimaryKey.KeyFieldsHead | src/fastapi_code_generator/file_generators/fastapi_generator.py:209-216 | The first collected key is the flagged field of smallest index. |
| PrimaryKey.IntegerKeyNotPreferred | src/fastapi_code_generator/file_generators/fastapi_generator.py:210 | Because the list says `interger`, a key typed `integer` does not win over an earlier `varchar` key. |
| Paths.ParentOf | src/fastapi_code_generator/file_generators/fastapi_generator.py:255 | The parent is a proper prefix of the path that ends right before a `/` with no `/` after it. There is no parent exactly when the path holds no `/`. |
| Paths.Join | src/fastapi_code_generator/file_generators/fastapi_generator.py:229-242 | Definition of `'{0}/{1}'.format(dir, name)`. `JoinParent` characterises it. |
| Paths.JoinParent | src/fastapi_code_generator/file_generators/fastapi_generator.py:229-242 | Joining a segment (text with no `/`) onto any directory gives a path whose parent is that directory. |
| Folders.WalkBounds | src/fastapi_code_generator/file_generators/fastapi_generator.py:245-261 | `_mk_dir` never removes a path and adds only paths it was given. |
| Folders.Walk | src/fastapi_code_generator/file_generators/fastapi_generator.py:245-261 | Definition of `_mk_dir` on the set of existing paths. `WalkBounds`, `WalkIdempotent`, `WalkStopsAtFailure` and `WalkCreatesAll` characterise it. |
| Folders.Completes | src/fastapi_code_generator/file_generators/fastapi_generator.py:251-261 | Definition of whether a `_mk_dir` call reaches the end of its arguments. `CompletesIffAllExist` characterises it. |
| Folders.ParentExists | src/fastapi_code_generator/file_generators/fastapi_generator.py:255 | Definition of when `os.mkdir` at :255 and `open` at :43 succeed: the text before the last `/` is an existing path, or there is no `/`. `WalkCreatesAll`, `WalkStopsAtFailure` and `GeneratedDirsReady` characterise it. |
| Folders.WalkAllExisting | src/fastapi_code_generator/file_generators/fastapi_generator.py:251-261 | Given only existing paths, `_mk_dir` changes nothing and completes. |
| Folders.WalkIdempotent | src/fastapi_code_generator/file_generators/fastapi_generator.py:245-261 | A second `_mk_dir` with the same arguments changes nothing, even after a first call that stopped early. |
| Folders.CompletesIffAllExist | src/fastapi_code_generator/file_generators/fastapi_generator.py:245-261 | A call runs to the end of its arguments exactly when every argument exists afterwards. |
| Folders.WalkStopsAtFailure | src/fastapi_code_generator/file_generators/fastapi_generator.py:253-257 | After a failed creation, later arguments are not created. |
| Folders.WalkAfterSuccess | src/fastapi_code_generator/file_generators/fastapi_generator.py:251-261 | After a successful prefix of the arguments, the rest carry on from the state that prefix left. |
| Folders.WalkCreatesAll | src/fastapi_code_generator/file_generators/fastapi_generator.py:245-261 | If every argument's parent exists or comes earlier, the call completes, and afterwards exactly the old paths and the arguments exist. |
| Folders.RequestedDirsLayout | src/fastapi_code_generator/file_generators/fastapi_generator.py:221-242 | The requested directories are the six fixed ones in source order, then, per model, its domain package and its test package. |
| Folders.RequestedParentsPrecede | src/fastapi_code_generator/file_generators/fastapi_generator.py:221-242 | With a single-segment project name and plural names, each requested directory's parent is the target or an earlier request. |
| Folders.FolderStructureCreatesAll | src/fastapi_code_generator/file_generators/fastapi_generator.py:221-242 | With the target present, a single-segment project name and single-segment plural names, the folder structure creates exactly the requested directories and nothing else. |
| Folders.FolderStructureIdempotent | src/fastapi_code_generator/file_generators/fastapi_generator.py:221-242 | Under the same conditions, a second folder-structure pass changes nothing. |
| Folders.FixedDirs | src/fastapi_code_generator/file_generators/fastapi_generator.py:221-236 | Definition of the six directories of the first `_mk_dir` call, in source order. `RequestedDirsLayout` and `FixedParents` characterise it. |
| Folders.ModelDirs | src/fastapi_code_generator/file_generators/fastapi_generator.py:238-242 | Definition of a model's domain package and test package. `RequestedDirsLayout` and `ModelParentAt` characterise it. |
| Folders.ProjectDir | src/fastapi_code_generator/file_generators/fastapi_generator.py:15 | Definition of `{target}/src/{project}`. `FixedParents` characterises it. |
| Folders.DomainPackage | src/fastapi_code_generator/file_generators/fastapi_generator.py:240 | Definition of `'{0}/domain/{1}'.format(project_dir, plural_name)`. `RequestedDirsLayout` and `ModelParentAt` characterise it. |
| Folders.TestPackage | src/fastapi_code_generator/file_generators/fastapi_generator.py:241 | Definition of `'{0}/tests/test_{1}'.format(target_path, plural_name)`. `RequestedDirsLayout` and `ModelParentAt` characterise it. |
| Folders.FolderGroups | src/fastapi_code_generator/file_generators/fastapi_generator.py:229-242 | Definition of the argument lists of the successive `_mk_dir` calls: the fixed call, then one call per model. `RequestedDirsLayout` characterises it. |
| Folders.WalkGroups | src/fastapi_code_generator/file_generators/fastapi_generator.py:229-242 | Definition of the successive `_mk_dir` calls, each starting from the paths the previous one left. `WalkGroupsBounds`, `FolderStructureCreatesAll` and `FolderStructureIdempotent` characterise it. |
| Folders.WalkGroupsBounds | src/fastapi_code_generator/file_generators/fastapi_generator.py:221-242 | The successive `_mk_dir` calls never remove a path and add only requested ones. |
| Layout.RouteFilesLayout | src/fastapi_code_generator/file_generators/fastapi_generator.py:129-140 | One router file, in `{project_dir}/routers`, named by a single segment. |
| Layout.RouteFiles | src/fastapi_code_generator/file_generators/fastapi_generator.py:129-140 | Definition of the router file's template and output path. `RouteFilesLayout` characterises it. |
| Layout.DomainFiles | src/fastapi_code_generator/file_generators/fastapi_generator.py:143-188 | Definition of the four domain files' templates and output paths. `DomainFilesLayout` characterises it. |
| Layout.ModelTestFiles | src/fastapi_code_generator/file_generators/fastapi_generator.py:84-126 | Definition of the six per-model test files' templates and output paths. `ModelTestFilesLayout` characterises it. |
| Layout.TestFiles | src/fastapi_code_generator/file_generators/fastapi_generator.py:72-81 | Definition of the two shared test files' templates and output paths. `TestFilesLayout` characterises it. |
| Layout.CommonProjectFiles | src/fastapi_code_generator/file_generators/fastapi_generator.py:47-69 | Definition of the three project files' templates and output paths. `CommonProjectFilesLayout` characterises it. |
| Layout.ModelFiles | src/fastapi_code_generator/file_generators/fastapi_generator.py:18-24 | Definition of a model's eleven files in route, domain, tests order. `ModelFilesLayout` and `ModelFilesInRequestedDirs` characterise it. |
| Layout.DomainFilesLayout | src/fastapi_code_generator/file_generators/fastapi_generator.py:143-188 | Four domain files, all in `{project_dir}/domain/{plural}`, each named by a single segment. |
| Layout.ModelTestFilesLayout | src/fastapi_code_generator/file_generators/fastapi_generator.py:84-126 | Six test files, all in `{target}/tests/test_{plural}`, each named by a single segment. |
| Layout.ModelFilesLayout | src/fastapi_code_generator/file_generators/fastapi_generator.py:18-24 | Each model renders 11 files in order: file 0 in routers, files 1-4 in its domain package, files 5-10 in its test package. |
| Layout.TestFilesLayout | src/fastapi_code_generator/file_generators/fastapi_generator.py:72-81 | Two shared test files, both in `{target}/tests`. |
| Layout.CommonProjectFilesLayout | src/fastapi_code_generator/file_generators/fastapi_generator.py:47-69 | Three project files: the service factory in `core`, the base schemas in `domain`, and `__init__.py` in the project package. |
| Layout.ModelFilesInRequestedDirs | src/fastapi_code_generator/file_generators/fastapi_generator.py:84-188 | When the model's singular and plural names are single segments, every file of that model is written directly into a directory that the folder structure requests. |
| Layout.ProjectFilesInRequestedDirs | src/fastapi_code_generator/file_generators/fastapi_generator.py:47-81 | Every shared and project-wide file is written directly into a requested directory. |
| Layout.UsersRouteInShop | src/fastapi_code_generator/file_generators/fastapi_generator.py:129-140 | Example: the table `users` in project `shop` gets its router at `{target}/src/shop/routers/users_route.py`. |
| Layout.UsersSchemasInShop | src/fastapi_code_generator/file_generators/fastapi_generator.py:143-188 | Example: the same table gets its schemas at `{target}/src/shop/domain/users/user_schemas.py`. |
| Generator.WriteModelFilesAppend | src/fastapi_code_generator/file_generators/fastapi_generator.py:18-24 | Rendering a list of model files is rendering its two parts in sequence, and the second part runs only if the first raised nothing. |
| Generator.WriteModelFiles | src/fastapi_code_generator/file_generators/fastapi_generator.py:31-44 | Definition of successive `_gen_model_file` calls: resolve the key, then write if the directory exists, raising otherwise. `WriteModelFilesNoKey`, `WriteModelFilesAll` and `WriteModelFilesAppend` characterise it. |
| Generator.WriteProjectFiles | src/fastapi_code_generator/file_generators/fastapi_generator.py:191-197 | Definition of successive `_gen_file` calls. `WriteProjectFilesAll` characterises it. |
| Generator.GenApiOutcome | src/fastapi_code_generator/file_generators/fastapi_generator.py:14-28 | Definition of the whole run: the folder structure, then the model loop, then the shared files. `GenApiFilesSucceeds`, `GenApiFilesStopsAtKeylessModel` and `GenApiIdempotent` characterise it. |
| Generator.KeyContext | src/fastapi_code_generator/file_generators/fastapi_generator.py:36-41 | Definition of the render context of a model file: the model, the key's name and type name, and the project name. `WriteModelFilesAll` characterises it. |
| Generator.ModelOutcome | src/fastapi_code_generator/file_generators/fastapi_generator.py:19-24 | Definition of one loop iteration: the model's eleven files through `_gen_model_file`. `ModelOutcomeCases` characterises it. |
| Generator.ModelsOutcome | src/fastapi_code_generator/file_generators/fastapi_generator.py:18-24 | Definition of the model loop, ending at the first model that raises. `ModelsOutcomeAll` and `ModelsOutcomeStopsAt` characterise it. |
| Generator.GeneratedDirs | src/fastapi_code_generator/file_generators/fastapi_generator.py:15-16 | Definition of the paths after `_mk_folder_structure`. `GeneratedDirsReady` and `GenApiIdempotent` characterise it. |
| Generator.ProjectFilesOutcome | src/fastapi_code_generator/file_generators/fastapi_generator.py:26-28 | Definition of `_gen_test_file` followed by `_gen_common_project_files`. `ProjectFilesAll` characterises it. |
| Generator.WriteModelFilesNoKey | src/fastapi_code_generator/file_generators/fastapi_generator.py:31-44 | A model without a primary key writes nothing and raises. |
| Generator.WriteModelFilesAll | src/fastapi_code_generator/file_generators/fastapi_generator.py:31-44 | With a key and every directory present, all files are written in order, each against the model and its resolved key. |
| Generator.WriteProjectFilesAll | src/fastapi_code_generator/file_generators/fastapi_generator.py:191-197 | With every directory present, all shared files are written in order, against the model list and the project name. |
| Generator.ModelWritesInExistingDirs | src/fastapi_code_generator/file_generators/fastapi_generator.py:43-44 | No model file is ever written into a directory that does not exist. |
| Generator.ProjectWritesInExistingDirs | src/fastapi_code_generator/file_generators/fastapi_generator.py:196-197 | No shared file is ever written into a directory that does not exist. |
| Generator.ModelOutcomeCases | src/fastapi_code_generator/file_generators/fastapi_generator.py:18-24 | With its directories present, a model returns normally iff it has a key. It then writes its 11 files; otherwise it writes nothing. |
| Generator.ModelsOutcomeAll | src/fastapi_code_generator/file_generators/fastapi_generator.py:18-24 | If every model has a key and every model's output directories exist, the loop writes 11 files per model, one block per model, in model order. |
| Generator.ModelsOutcomeStopsAt | src/fastapi_code_generator/file_generators/fastapi_generator.py:18-24 | When every model's output directories exist, the first model without a key stops the loop, and the log is what the models before it wrote. |
| Generator.GeneratedDirsReady | src/fastapi_code_generator/file_generators/fastapi_generator.py:14-16 | With the target present and single-segment names, the folder structure creates every directory the run writes into. |
| Generator.GenApiFilesSucceeds | src/fastapi_code_generator/file_generators/fastapi_generator.py:14-28 | Given three conditions (the target directory exists, the project name is a single segment, and every model's names are), a run returns normally iff every model has a key. It then writes 11k+5 files: the 11-file block of each model in order, then the two test files and the three project files. |
| Generator.GenApiFilesStopsAtKeylessModel | src/fastapi_code_generator/file_generators/fastapi_generator.py:14-28 | Under the same three conditions, a run stops at the first keyless model k: it raises, and it has written exactly the 11k files of the earlier models. |
| Generator.GenApiFilesWritesIntoExistingDirs | src/fastapi_code_generator/file_generators/fastapi_generator.py:14-28 | For any inputs, every file written lands in a directory that exists after the folder structure. This follows from the `open` guard alone; `GeneratedDirsReady` shows that the directories are there. |
| Generator.GenApiIdempotent | src/fastapi_code_generator/file_generators/fastapi_generator.py:14-28 | With the same three conditions, a second run on the directories the first one left creates no directory. It writes the same log from the same templates and contexts, so every generated file has the same final contents. |
| Generator.FirstKeyless | src/fastapi_code_generator/file_generators/fastapi_generator.py:18-24 | If some model lacks a key, this is the first such model: every earlier model has one. |
| Generator.FileSystem.constructor | src/fastapi_code_generator/file_generators/fastapi_generator.py:14 | The filesystem starts with the given paths and an empty log. |
| Generator.FileSystem.MkDir | src/fastapi_code_generator/file_generators/fastapi_generator.py:245-261 | The loop with its early return leaves exactly the paths that `Walk` describes and writes no file. |
| Generator.FileSystem.MkFolderStructure | src/fastapi_code_generator/file_generators/fastapi_generator.py:221-242 | The fixed call, then one call per model, leaves the paths that the successive walks describe. |
| Generator.FileSystem.GenModelFile | src/fastapi_code_generator/file_generators/fastapi_generator.py:31-44 | It resolves the key before writing: no key means nothing is written and it raises; a missing directory means the same. Otherwise it appends one file rendered against the model and its key. |
| Generator.FileSystem.GenFile | src/fastapi_code_generator/file_generators/fastapi_generator.py:191-197 | It appends one file rendered against the model list, or raises when the output's directory is missing. |
| Generator.FileSystem.GenModelFiles | src/fastapi_code_generator/file_generators/fastapi_generator.py:31-44 | Successive model-file renders append what `WriteModelFiles` describes and stop at the first exception. |
| Generator.FileSystem.GenFiles | src/fastapi_code_generator/file_generators/fastapi_generator.py:191-197 | Successive shared-file renders append what `WriteProjectFiles` describes and stop at the first exception. |
| Generator.FileSystem.GenModelRouteFile | src/fastapi_code_generator/file_generators/fastapi_generator.py:129-140 | It appends the router file, or raises. |
| Generator.FileSystem.GenModelDomainFiles | src/fastapi_code_generator/file_generators/fastapi_generator.py:143-188 | It appends the four domain files in order, stopping at the first exception. |
| Generator.FileSystem.GenModelTestFiles | src/fastapi_code_generator/file_generators/fastapi_generator.py:84-126 | It appends the six test files in order, stopping at the first exception. |
| Generator.FileSystem.GenModel | src/fastapi_code_generator/file_generators/fastapi_generator.py:18-24 | One loop iteration (router, then domain, then tests) appends what `ModelOutcome` describes. |
| Generator.FileSystem.GenModels | src/fastapi_code_generator/file_generators/fastapi_generator.py:18-24 | The model loop appends what `ModelsOutcome` describes, ending at the first model that raises. |
| Generator.FileSystem.GenTestFile | src/fastapi_code_generator/file_generators/fastapi_generator.py:72-81 | It appends `utils.py` and then `conftest.py`, stopping at the first exception. |
| Generator.FileSystem.GenCommonProjectFiles | src/fastapi_code_generator/file_generators/fastapi_generator.py:47-69 | It appends the service factory, the base schemas and the package init, in that order, stopping at the first exception. |
| Generator.FileSystem.GenApiFiles | src/fastapi_code_generator/file_generators/fastapi_generator.py:14-28 | A whole run leaves the paths `GeneratedDirs` describes, appends exactly what `GenApiOutcome` describes, and returns normally exactly when `GenApiOutcome` does. |

The loop methods carry proof work in their invariants. In
`PrimaryKey.GetPrimaryKey`, the invariants relate the partial
`possible_keys` to the resolution rule. In `FileSystem.MkDir`,
`MkFolderStructure`, `GenModelFiles`, `GenFiles` and `GenModels`, they tie
the state to `Walk`, `WalkGroups`, `WriteModelFiles`, `WriteProjectFiles`
and `RunAll`.
The `FileSystem` methods are tied to the functions the lemmas are about, so
the lemmas about `GenApiOutcome` hold for `FileSystem.GenApiFiles`.

## Left out

- Template rendering: Mako templates are not interpreted. A written file is
  recorded by its template path, output path and context, not by its text.
  Reading an unreadable or missing template is not modelled; templates are
  taken to exist.
- Type translation: `JsonTranslator.translate_typename_to_pytypes` is not
  part of this model. The context keeps the key's source type name, which
  the translator would map.
- Failures of foreign calls: the model assumes three calls never raise.
  These are `template.render`, the type translator (which fails on a type
  name it has no mapping for), and `open(..., "w")` for any cause other
  than a missing parent directory, such as an output path that is a
  directory or a denied permission. So once a model's key resolves and its
  directory exists, its file is taken to be written.
  `GenApiFilesSucceeds`' "returns normally iff every model has a key", and
  `GenApiFilesStopsAtKeylessModel`, hold only under that assumption.
- Logging: the `print` calls in `_mk_dir` have no effect on the model.
- `os.mkdir` failures other than a missing parent (permissions, a full
  disk, an existing non-directory) are not modelled. Path text is not
  normalised, and a path with no `/` counts as creatable.
- Written files are kept in the log only. They are not added to the set of
  existing paths, and writing the same path twice records two entries.
- `src/fastapi_code_generator/__init__.py` (the command-line entry point
  that calls the generator) and the `template_setup.py` template are not
  part of this model. Neither are the unused imports (`shutil`, `mkdir`,
  the Mako `Context`, `requests.models`).
- The schema classes (`fastapi_code_generator.schemas.baseschemas`) are not
  part of this model. `Schema.Model`, `Field`, `Type` and `Names` keep only
  the attributes the generator reads.
