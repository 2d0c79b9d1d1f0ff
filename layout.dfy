/** Where generation writes: every output path is a string-format function of
    the templates directory, the target directory, the project name and a
    model's plural and singular names. */
module Layout {
  import opened Schema
  import opened Paths
  import opened Folders

  /** One rendered file: the template it comes from and where it is
      written, as the directory and the file name that the format string
      joins. */
  datatype OutputFile = OutputFile(template: string, dir: string, name: string)
  {
    function Output(): string
    {
      Join(dir, name)
    }
  }

  /** `_gen_model_route_file`: `{project_dir}/routers/{plural}_route.py`. */
  function RouteFiles(templatesPath: string, targetPath: string, projectName: string, names: Names): seq<OutputFile>
  {
    var projectDir := ProjectDir(targetPath, projectName);
    [OutputFile(templatesPath + "/src/project/routers/template_route.py",
                Join(projectDir, "routers"), names.pluralName + "_route.py")]
  }

  /** `_gen_model_domain_files`: services, queries, model and schemas in
      `{project_dir}/domain/{plural}/`, named after the singular. */
  function DomainFiles(templatesPath: string, targetPath: string, projectName: string, names: Names): seq<OutputFile>
  {
    var dir := DomainPackage(ProjectDir(targetPath, projectName), names.pluralName);
    var templates := templatesPath + "/src/project/domain/model/";
    [OutputFile(templates + "template_services.py", dir, names.singularName + "_services.py"),
     OutputFile(templates + "template_queries.py", dir, names.singularName + "_queries.py"),
     OutputFile(templates + "template_model.py", dir, names.singularName + "_model.py"),
     OutputFile(templates + "template_schemas.py", dir, names.singularName + "_schemas.py")]
  }

  /** `_gen_model_test_files`: six files in `{target}/tests/test_{plural}/`. */
  function ModelTestFiles(templatesPath: string, targetPath: string, names: Names): seq<OutputFile>
  {
    var dir := TestPackage(targetPath, names.pluralName);
    var templates := templatesPath + "/tests/test_route/";
    [OutputFile(templates + "__init__.py", dir, "__init__.py"),
     OutputFile(templates + "test_basic_positive.py", dir, "test_basic_positive.py"),
     OutputFile(templates + "test_invalid_input_negative.py", dir, "test_invalid_input_negative.py"),
     OutputFile(templates + "test_valid_input_negative.py", dir, "test_valid_input_negative.py"),
     OutputFile(templates + "test_extended_positive.py", dir, "test_extended_positive.py"),
     OutputFile(templates + "test_destructive.py", dir, "test_destructive.py")]
  }

  /** A model's files in the order `gen_api_files` renders them. */
  function ModelFiles(templatesPath: string, targetPath: string, projectName: string, names: Names): seq<OutputFile>
  {
    RouteFiles(templatesPath, targetPath, projectName, names)
      + DomainFiles(templatesPath, targetPath, projectName, names)
      + ModelTestFiles(templatesPath, targetPath, names)
  }

  /** `_gen_test_file`: the shared test helpers in `{target}/tests/`. */
  function TestFiles(templatesPath: string, targetPath: string): seq<OutputFile>
  {
    var dir := Join(targetPath, "tests");
    [OutputFile(templatesPath + "/tests/utils.py", dir, "utils.py"),
     OutputFile(templatesPath + "/tests/conftest.py", dir, "conftest.py")]
  }

  /** `_gen_common_project_files`: service factory, base schemas and the
      package's `__init__.py`. */
  function CommonProjectFiles(templatesPath: string, targetPath: string, projectName: string): seq<OutputFile>
  {
    var projectDir := ProjectDir(targetPath, projectName);
    var templates := templatesPath + "/src/project/";
    [OutputFile(templates + "core/service_factory.py", Join(projectDir, "core"), "service_factory.py"),
     OutputFile(templates + "domain/template_base_schemas.py", Join(projectDir, "domain"), "base_schemas.py"),
     OutputFile(templates + "template_project_init.py", projectDir, "__init__.py")]
  }

  predicate NameSegments(names: Names)
  {
    IsSegment(names.pluralName) && IsSegment(names.singularName)
  }

  /** A file whose name is a single segment is written into its `dir`. */
  lemma OutputParent(f: OutputFile)
    requires IsSegment(f.name)
    ensures ParentOf(f.Output()) == Some(f.dir)
  {
    JoinParent(f.dir, f.name);
  }

  // ---------------------------------------------------------------------
  // Layout facts.

  /** Helper for `ModelFilesInRequestedDirs`: the route file lies in
      `{project_dir}/routers` under a single-segment name. */
  lemma RouteFilesLayout(templatesPath: string, targetPath: string, projectName: string, names: Names)
    requires IsSegment(names.pluralName)
    ensures var files := RouteFiles(templatesPath, targetPath, projectName, names);
      && |files| == 1
      && files[0].dir == Join(ProjectDir(targetPath, projectName), "routers")
      && IsSegment(files[0].name)
  {
    LiteralSegment("_route.py");
    SegmentConcat(names.pluralName, "_route.py");
  }

  /** Helper for `ModelFilesInRequestedDirs`: the four domain files lie in
      the model's domain package under single-segment names. */
  lemma DomainFilesLayout(templatesPath: string, targetPath: string, projectName: string, names: Names)
    requires IsSegment(names.singularName)
    ensures var files := DomainFiles(templatesPath, targetPath, projectName, names);
      && |files| == 4
      && forall i :: 0 <= i < 4 ==>
           files[i].dir == DomainPackage(ProjectDir(targetPath, projectName), names.pluralName) && IsSegment(files[i].name)
  {
    var singular := names.singularName;
    LiteralSegment("_services.py");
    SegmentConcat(singular, "_services.py");
    LiteralSegment("_queries.py");
    SegmentConcat(singular, "_queries.py");
    LiteralSegment("_model.py");
    SegmentConcat(singular, "_model.py");
    LiteralSegment("_schemas.py");
    SegmentConcat(singular, "_schemas.py");
  }

  /** Helper for `ModelFilesInRequestedDirs`: the six test files lie in the
      model's test package under single-segment names. */
  lemma ModelTestFilesLayout(templatesPath: string, targetPath: string, names: Names)
    ensures var files := ModelTestFiles(templatesPath, targetPath, names);
      && |files| == 6
      && forall i :: 0 <= i < 6 ==> files[i].dir == TestPackage(targetPath, names.pluralName) && IsSegment(files[i].name)
  {
    TestNamesAreSegments();
  }

  lemma TestNamesAreSegments()
    ensures IsSegment("__init__.py") && IsSegment("test_basic_positive.py")
    ensures IsSegment("test_invalid_input_negative.py") && IsSegment("test_valid_input_negative.py")
    ensures IsSegment("test_extended_positive.py") && IsSegment("test_destructive.py")
  {
    NegativeTestNamesAreSegments();
    LiteralSegment("__init__.py");
    LiteralSegment("test_basic_positive.py");
    LiteralSegment("test_extended_positive.py");
    LiteralSegment("test_destructive.py");
  }

  lemma NegativeTestNamesAreSegments()
    ensures IsSegment("test_invalid_input_negative.py") && IsSegment("test_valid_input_negative.py")
  {
    LiteralSegment("test_invalid_input_negative.py");
    LiteralSegment("test_valid_input_negative.py");
  }


  /** Eleven files per model: the route file in `{project_dir}/routers`,
      four domain files in the model's domain package, six test files in its
      test package, each named by a single segment. */
  lemma ModelFilesLayout(templatesPath: string, targetPath: string, projectName: string, names: Names)
    requires NameSegments(names)
    ensures var projectDir := ProjectDir(targetPath, projectName);
      var files := ModelFiles(templatesPath, targetPath, projectName, names);
      && |files| == 11
      && files[0].dir == Join(projectDir, "routers")
      && (forall i :: 1 <= i < 5 ==> files[i].dir == DomainPackage(projectDir, names.pluralName))
      && (forall i :: 5 <= i < 11 ==> files[i].dir == TestPackage(targetPath, names.pluralName))
      && (forall i :: 0 <= i < 11 ==> IsSegment(files[i].name))
  {
    var route := RouteFiles(templatesPath, targetPath, projectName, names);
    var domain := DomainFiles(templatesPath, targetPath, projectName, names);
    var tests := ModelTestFiles(templatesPath, targetPath, names);
    RouteFilesLayout(templatesPath, targetPath, projectName, names);
    DomainFilesLayout(templatesPath, targetPath, projectName, names);
    ModelTestFilesLayout(templatesPath, targetPath, names);
    var files := route + domain + tests;
    assert forall i :: 1 <= i < 5 ==> files[i] == domain[i - 1];
    assert forall i :: 5 <= i < 11 ==> files[i] == tests[i - 5];
  }

  /** Helper for `ProjectFilesInRequestedDirs`: the shared test helpers lie
      in `{target}/tests` under single-segment names. */
  lemma TestFilesLayout(templatesPath: string, targetPath: string)
    ensures var files := TestFiles(templatesPath, targetPath);
      |files| == 2 && forall i :: 0 <= i < 2 ==> files[i].dir == Join(targetPath, "tests") && IsSegment(files[i].name)
  {
    LiteralSegment("utils.py");
    LiteralSegment("conftest.py");
  }

  /** Helper for `ProjectFilesInRequestedDirs`: the service factory lies in
      core, the base schemas in domain, the package init in the project
      package itself, each under a single-segment name. */
  lemma CommonProjectFilesLayout(templatesPath: string, targetPath: string, projectName: string)
    ensures var projectDir := ProjectDir(targetPath, projectName);
      var files := CommonProjectFiles(templatesPath, targetPath, projectName);
      && |files| == 3
      && files[0].dir == Join(projectDir, "core")
      && files[1].dir == Join(projectDir, "domain")
      && files[2].dir == projectDir
      && (forall i :: 0 <= i < 3 ==> IsSegment(files[i].name))
  {
    LiteralSegment("service_factory.py");
    LiteralSegment("base_schemas.py");
    LiteralSegment("__init__.py");
  }

  /** Each file is written straight into its `dir`, and that directory is
      one of `req`. */
  predicate LandsIn(files: seq<OutputFile>, req: seq<string>)
  {
    forall i :: 0 <= i < |files| ==> ParentOf(files[i].Output()) == Some(files[i].dir) && files[i].dir in req
  }

  /** Every file of the k-th model lands in a directory that
      `_mk_folder_structure` requests. */
  lemma ModelFilesInRequestedDirs(templatesPath: string, targetPath: string, projectName: string, models: seq<Model>, k: nat)
    requires k < |models| && NameSegments(models[k].names)
    ensures LandsIn(ModelFiles(templatesPath, targetPath, projectName, models[k].names),
                    RequestedDirs(targetPath, ProjectDir(targetPath, projectName), models))
  {
    var projectDir := ProjectDir(targetPath, projectName);
    var req := RequestedDirs(targetPath, projectDir, models);
    var files := ModelFiles(templatesPath, targetPath, projectName, models[k].names);
    ModelFilesLayout(templatesPath, targetPath, projectName, models[k].names);
    RequestedDirsLayout(targetPath, projectDir, models);
    RequestedFixedAt(targetPath, projectDir, models);
    forall i | 0 <= i < |files|
      ensures ParentOf(files[i].Output()) == Some(files[i].dir) && files[i].dir in req
    {
      OutputParent(files[i]);
      if i == 0 {
        assert files[i].dir == req[4];
      } else if i < 5 {
        assert files[i].dir == req[6 + 2 * k];
      } else {
        assert files[i].dir == req[7 + 2 * k];
      }
    }
  }

  /** The shared test helpers land in a requested directory. */
  lemma TestFilesInRequestedDirs(templatesPath: string, targetPath: string, projectName: string, models: seq<Model>)
    ensures LandsIn(TestFiles(templatesPath, targetPath), RequestedDirs(targetPath, ProjectDir(targetPath, projectName), models))
  {
    var projectDir := ProjectDir(targetPath, projectName);
    var req := RequestedDirs(targetPath, projectDir, models);
    var tests := TestFiles(templatesPath, targetPath);
    TestFilesLayout(templatesPath, targetPath);
    RequestedFixedAt(targetPath, projectDir, models);
    forall i | 0 <= i < |tests|
      ensures ParentOf(tests[i].Output()) == Some(tests[i].dir) && tests[i].dir in req
    {
      OutputParent(tests[i]);
      assert tests[i].dir == req[5];
    }
  }

  /** The common project files land in requested directories. */
  lemma CommonFilesInRequestedDirs(templatesPath: string, targetPath: string, projectName: string, models: seq<Model>)
    ensures LandsIn(CommonProjectFiles(templatesPath, targetPath, projectName), RequestedDirs(targetPath, ProjectDir(targetPath, projectName), models))
  {
    var projectDir := ProjectDir(targetPath, projectName);
    var req := RequestedDirs(targetPath, projectDir, models);
    var common := CommonProjectFiles(templatesPath, targetPath, projectName);
    CommonProjectFilesLayout(templatesPath, targetPath, projectName);
    RequestedFixedAt(targetPath, projectDir, models);
    forall i | 0 <= i < |common|
      ensures ParentOf(common[i].Output()) == Some(common[i].dir) && common[i].dir in req
    {
      OutputParent(common[i]);
      assert common[i].dir == req[if i == 0 then 2 else if i == 1 then 3 else 1];
    }
  }

  lemma LandsInConcat(first: seq<OutputFile>, second: seq<OutputFile>, req: seq<string>)
    requires LandsIn(first, req) && LandsIn(second, req)
    ensures LandsIn(first + second, req)
  {
    var files := first + second;
    forall i | 0 <= i < |files|
      ensures ParentOf(files[i].Output()) == Some(files[i].dir) && files[i].dir in req
    {
      if i >= |first| {
        assert files[i] == second[i - |first|];
      }
    }
  }

  /** Every project-wide file lands in a directory that
      `_mk_folder_structure` requests. */
  lemma ProjectFilesInRequestedDirs(templatesPath: string, targetPath: string, projectName: string, models: seq<Model>)
    ensures LandsIn(TestFiles(templatesPath, targetPath) + CommonProjectFiles(templatesPath, targetPath, projectName),
                    RequestedDirs(targetPath, ProjectDir(targetPath, projectName), models))
  {
    TestFilesInRequestedDirs(templatesPath, targetPath, projectName, models);
    CommonFilesInRequestedDirs(templatesPath, targetPath, projectName, models);
    LandsInConcat(TestFiles(templatesPath, targetPath), CommonProjectFiles(templatesPath, targetPath, projectName),
                  RequestedDirs(targetPath, ProjectDir(targetPath, projectName), models));
  }

  lemma JoinFour(dir: string, a: string, b: string, c: string, d: string)
    ensures Join(Join(Join(Join(dir, a), b), c), d) == dir + ("/" + a + "/" + b + "/" + c + "/" + d)
  {
  }

  lemma JoinFive(dir: string, a: string, b: string, c: string, d: string, e: string)
    ensures Join(Join(Join(Join(Join(dir, a), b), c), d), e) == dir + ("/" + a + "/" + b + "/" + c + "/" + d + "/" + e)
  {
  }

  lemma ShopText()
    ensures "/" + "src" + "/" + "shop" == "/src/shop"
  {
  }

  lemma RouteText()
    ensures "/" + "src" + "/" + "shop" + "/" + "routers" + "/" + ("users" + "_route.py") == "/src/shop/routers/users_route.py"
  {
    ShopText();
    assert "users" + "_route.py" == "users_route.py";
    assert "/src/shop" + "/" + "routers" + "/" + "users_route.py" == "/src/shop/routers/users_route.py";
  }

  lemma SchemasText()
    ensures "/" + "src" + "/" + "shop" + "/" + "domain" + "/" + "users" + "/" + ("user" + "_schemas.py") == "/src/shop/domain/users/user_schemas.py"
  {
    ShopText();
    assert "user" + "_schemas.py" == "user_schemas.py";
    assert "/src/shop" + "/" + "domain" + "/" + "users" == "/src/shop/domain/users";
    assert "/src/shop/domain/users" + "/" + "user_schemas.py" == "/src/shop/domain/users/user_schemas.py";
  }

  /** A table `users` (singular `user`) in project `shop`: its route file
      lands where downstream tooling expects it. */
  lemma UsersRouteInShop(templatesPath: string, targetPath: string)
    ensures RouteFiles(templatesPath, targetPath, "shop", Names("user", "users"))[0].Output()
         == targetPath + "/src/shop/routers/users_route.py"
  {
    JoinFour(targetPath, "src", "shop", "routers", "users" + "_route.py");
    RouteText();
  }

  /** ... and so does its schemas file. */
  lemma UsersSchemasInShop(templatesPath: string, targetPath: string)
    ensures DomainFiles(templatesPath, targetPath, "shop", Names("user", "users"))[3].Output()
         == targetPath + "/src/shop/domain/users/user_schemas.py"
  {
    JoinFive(targetPath, "src", "shop", "domain", "users", "user" + "_schemas.py");
    SchemasText();
  }
}
