/** The first command-line generator, `create_app` of cli.py: a flat
    project (api, config, db, logs, notebooks, templates, utils and the
    asset folders), one template loop, and an optional Tailwind setup with
    the older helpers. The prompts' answers are inputs, and so are the
    answer of `check_npm` (a subprocess) and the parsed listing of the
    templates directory. */
module Cli {
  import opened Base
  import opened Json
  import opened Fs
  import opened Text
  import opened Templates
  import NpmUtils
  import TailwindLegacy

  datatype Tailwind = NoTailwind | Npm | Standalone

  /** The answers to the prompts. `htmlFilename` is "index" unless the
      user chose to rename the page. */
  datatype Answers = Answers(appName: string, htmlFilename: string, tailwind: Tailwind)

  // ---------------------------------------------------------------------
  // Folders

  const TopFolders: seq<Path> := ["api", "config", "db", "logs", "notebooks", "templates", "utils"]
  const AssetFolders: seq<Path> := ["fonts", "icons", "images", "svg-loaders", "css", "js", "docs"]

  function AssetPaths(names: seq<Path>): (ps: seq<Path>)
    ensures |ps| == |names| && forall i :: 0 <= i < |names| ==> ps[i] == Join("assets", names[i])
  {
    if names == [] then [] else [Join("assets", names[0])] + AssetPaths(names[1..])
  }

  /** Every folder, in the order `create_app` makes them. */
  function CliFolders(): seq<Path> {
    TopFolders + [Join("api", "routers")] + AssetPaths(AssetFolders)
  }

  /** The fifteen folders: the top ones, `api/routers`, then the assets. */
  lemma CliFoldersOrder()
    ensures var ps := CliFolders();
      |ps| == 15
      && ps[..7] == TopFolders && ps[7] == Join("api", "routers")
      && forall i :: 0 <= i < 7 ==> ps[8 + i] == Join("assets", AssetFolders[i])
  {
    var ps, ap := CliFolders(), AssetPaths(AssetFolders);
    var head := TopFolders + [Join("api", "routers")];
    assert |TopFolders| == 7 && |AssetFolders| == 7;
    assert ps == head + ap;
    assert ps[..7] == head[..7] == TopFolders;
    forall i | 0 <= i < 7 ensures ps[8 + i] == Join("assets", AssetFolders[i]) {
      assert ps[8 + i] == ap[i];
    }
  }

  // ---------------------------------------------------------------------
  // The template loop

  const ApiTemplates := "api_templates.yaml"
  const GitignoreTemplate := "gitignore_template.yaml"
  const HtmlTemplate := "html_template.yaml"

  /** What one template of the listing turns into: an elif chain on the
      file name. */
  function CliEntry(a: Answers, e: Entry): seq<Action> {
    if !IsYaml(e) then []
    else if e.name == ApiTemplates then
      FormatEach(e.doc, map["app_name" := a.appName], map["app_name" := a.appName, "html_filename" := a.htmlFilename])
    else if e.name == GitignoreTemplate then CreateSingle(e.doc)
    else if e.name == HtmlTemplate then FormatSingle(e.doc, map["filename" := a.htmlFilename], map["title" := a.htmlFilename])
    else FormatSingle(e.doc, map["app_name" := a.appName], map["app_name" := a.appName])
  }

  function CliPlan(a: Answers): Entry -> seq<Action> {
    e => CliEntry(a, e)
  }

  lemma CliNamesDistinct()
    ensures ApiTemplates != GitignoreTemplate && ApiTemplates != HtmlTemplate && GitignoreTemplate != HtmlTemplate
  {
    assert ApiTemplates[0] == 'a' && GitignoreTemplate[0] == 'g' && HtmlTemplate[0] == 'h';
  }

  lemma CliNamesAreYaml()
    ensures EndsWith(ApiTemplates, ".yaml") && EndsWith(GitignoreTemplate, ".yaml") && EndsWith(HtmlTemplate, ".yaml")
  {
    assert ApiTemplates[|ApiTemplates| - 5..] == ".yaml";
    assert GitignoreTemplate[|GitignoreTemplate| - 5..] == ".yaml";
    assert HtmlTemplate[|HtmlTemplate| - 5..] == ".yaml";
  }

  /** A name that is not a YAML file is skipped, whatever its content. */
  lemma CliNonYamlSkipped(a: Answers, e: Entry)
    requires !EndsWith(e.name, ".yaml")
    ensures CliEntry(a, e) == []
  {
  }

  /** Each API record: `{app_name}` in the file name becomes the app name,
      and the content may use the app name and the HTML name. */
  lemma ApiTemplatesFormatted(a: Answers, p: string, q: string, p2: string, m: string, q2: string)
    requires BraceFree(p) && BraceFree(q) && BraceFree(p2) && BraceFree(m) && BraceFree(q2)
    ensures var rec := Record(p + "{app_name}" + q, p2 + "{app_name}" + (m + "{html_filename}" + q2));
      CliEntry(a, Entry(ApiTemplates, Many([rec])))
        == [Create(p + a.appName + q, p2 + a.appName + (m + a.htmlFilename + q2))]
  {
    CliNamesAreYaml();
    var nameCtx := map["app_name" := a.appName];
    var ctx := map["app_name" := a.appName, "html_filename" := a.htmlFilename];
    assert "{app_name}" == "{" + "app_name" + "}" && "{html_filename}" == "{" + "html_filename" + "}";
    FormatBetween(p, "app_name", q, nameCtx);
    FormatTwo(p2, "app_name", m, "html_filename", q2, ctx);
    var rec := Record(p + "{app_name}" + q, p2 + "{app_name}" + (m + "{html_filename}" + q2));
    assert FormatRecord(rec, nameCtx, ctx) == Create(p + a.appName + q, p2 + a.appName + (m + a.htmlFilename + q2));
  }

  /** The gitignore record is written as it is: braces in it are kept. */
  lemma GitignoreVerbatim(a: Answers, rec: Record)
    ensures CliEntry(a, Entry(GitignoreTemplate, One(rec))) == [Create(rec.filename, rec.content)]
  {
    CliNamesDistinct();
    CliNamesAreYaml();
  }

  /** The HTML page: `{filename}` in its name and `{title}` in its
      content both become the HTML name. */
  lemma HtmlTemplateWritten(a: Answers, p: string, q: string, p2: string, q2: string)
    requires BraceFree(p) && BraceFree(q) && BraceFree(p2) && BraceFree(q2)
    ensures var rec := Record(p + "{filename}" + q, p2 + "{title}" + q2);
      CliEntry(a, Entry(HtmlTemplate, One(rec))) == [Create(p + a.htmlFilename + q, p2 + a.htmlFilename + q2)]
  {
    CliNamesDistinct();
    CliNamesAreYaml();
    assert "{filename}" == "{" + "filename" + "}" && "{title}" == "{" + "title" + "}";
    FormatBetween(p, "filename", q, map["filename" := a.htmlFilename]);
    FormatBetween(p2, "title", q2, map["title" := a.htmlFilename]);
  }

  /** Any other YAML template: `{app_name}` in its name and content
      becomes the app name; a field it does not know raises KeyError. */
  lemma OtherTemplateWritten(a: Answers, n: string, p: string, q: string, p2: string, q2: string)
    requires EndsWith(n, ".yaml") && n != ApiTemplates && n != GitignoreTemplate && n != HtmlTemplate
    requires BraceFree(p) && BraceFree(q) && BraceFree(p2) && BraceFree(q2)
    ensures var rec := Record(p + "{app_name}" + q, p2 + "{app_name}" + q2);
      CliEntry(a, Entry(n, One(rec))) == [Create(p + a.appName + q, p2 + a.appName + q2)]
  {
    var ctx := map["app_name" := a.appName];
    assert "{app_name}" == "{" + "app_name" + "}";
    FormatBetween(p, "app_name", q, ctx);
    FormatBetween(p2, "app_name", q2, ctx);
  }

  /** The HTML template read by the other-template branch would fail: its
      `{title}` is not among the app-name fields. */
  lemma OtherTemplateUnknownField(a: Answers, n: string, f: string, p: string, q: string)
    requires EndsWith(n, ".yaml") && n != ApiTemplates && n != GitignoreTemplate && n != HtmlTemplate
    requires BraceFree(f) && BraceFree(p) && BraceFree(q)
    ensures CliEntry(a, Entry(n, One(Record(f, p + "{title}" + q)))) == [Raise(KeyError("title"))]
  {
    var ctx := map["app_name" := a.appName];
    assert "title"[0] != "app_name"[0];
    assert "{title}" == "{" + "title" + "}";
    FormatPlain(f, ctx);
    FormatPlainPrefix(p, "{title}" + q, ctx);
    FormatField("title", q, ctx);
    assert p + "{title}" + q == p + ("{title}" + q);
  }

  // ---------------------------------------------------------------------
  // Tailwind

  const BuildCss: string := "\"build-css\": \"tailwindcss -i ./assets/css/input.css -o ./assets/css/style.css --watch\""
  const MissingPlugins: string := "setup_tailwind_npm() missing 1 required positional argument: 'plugins'"

  /** The Tailwind step as written: `setup_tailwind_npm(app_dir)` passes one
      argument to a two-parameter helper and raises TypeError, so the
      `build-css` merge after it is never reached. */
  function TailwindStepAsWritten(st: State, platform: string, t: Tailwind, appDir: Path): (r: (State, Outcome))
    ensures r.0.files == st.files
    ensures r.1.Fail? <==> t == Npm
  {
    match t
    case NoTailwind => (st, Pass)
    case Npm => (st, Fail(TypeError(MissingPlugins)))
    case Standalone => (TailwindLegacy.SetupTailwindStandaloneFn(st, platform, appDir), Pass)
  }

  /** The Tailwind step as intended: the npm setup without plugins (the
      command has no plugin prompt), then the `build-css` script merged
      into package.json. */
  function TailwindStepFn(st: State, c: Codec, platform: string, t: Tailwind, appDir: Path): (State, Outcome) {
    match t
    case NoTailwind => (st, Pass)
    case Npm =>
      var (st1, o1) := TailwindLegacy.SetupTailwindNpmFn(st, c, platform, appDir, []);
      if o1.Fail? then (st1, o1) else TailwindLegacy.UpdatePackageJsonFn(st1, c, appDir, BuildCss)
    case Standalone => (TailwindLegacy.SetupTailwindStandaloneFn(st, platform, appDir), Pass)
  }

  /** Only the npm option touches a file: without Tailwind nothing runs,
      and the standalone CLI only issues commands. */
  lemma OnlyNpmWritesPackageJson(st: State, c: Codec, platform: string, t: Tailwind, appDir: Path)
    requires t != Npm
    ensures TailwindStepFn(st, c, platform, t, appDir).0.files == st.files
    ensures TailwindStepFn(st, c, platform, t, appDir).1 == Pass
  {
  }

  // ---------------------------------------------------------------------
  // The whole command

  /** The gate before anything is made: for npm, a missing npm ends the
      command after the install instructions, and `check_tailwind_npm`
      reads package.json in the starting directory (its answer is only
      reported). */
  function GateFn(st: State, c: Codec, a: Answers, npmPresent: bool): (r: Option<Outcome>)
    ensures a.tailwind != Npm ==> r == None
    ensures a.tailwind == Npm && !npmPresent ==> r == Some(Pass)
  {
    if a.tailwind != Npm then None
    else if !npmPresent then Some(Pass)
    else match NpmUtils.CheckPackageFn(st, c, "tailwindcss")
      case Err(e) => Some(Fail(e))
      case Ok(_) => None
  }

  /** Everything between the gate and the Tailwind step: the app
      directory, the folders, the template loop. */
  function BuildFn(st: State, a: Answers, listing: seq<Entry>): (State, Outcome) {
    var (st1, o1) := MakeDirsFn(st, a.appName);
    if o1.Fail? then (st1, o1)
    else
      var (st2, o2) := MakeAllFn(ChDirFn(st1, Resolve(st, a.appName)), CliFolders());
      if o2.Fail? then (st2, o2)
      else ExecAllFn(st2, PlanAll(CliPlan(a), listing))
  }

  /** `create_app` as written (cli.py:14-96), with the template writes
      through the corrected `create_file`. It is the corrected command
      for every Tailwind choice but npm. */
  function CreateAppAsWritten(st: State, c: Codec, platform: string, a: Answers, npmPresent: bool, listing: seq<Entry>): (r: (State, Outcome))
    ensures a.tailwind != Npm ==> r == CreateAppFn(st, c, platform, a, npmPresent, listing)
  {
    match GateFn(st, c, a, npmPresent)
    case Some(o) => (st, o)
    case None =>
      var (st1, o1) := BuildFn(st, a, listing);
      if o1.Fail? then (st1, o1) else TailwindStepAsWritten(st1, platform, a.tailwind, Resolve(st, a.appName))
  }

  /** `create_app` with the Tailwind step as intended. A command stopped
      at the gate changes nothing, and only the npm option writes a file
      after the build. */
  function CreateAppFn(st: State, c: Codec, platform: string, a: Answers, npmPresent: bool, listing: seq<Entry>): (r: (State, Outcome))
    ensures GateFn(st, c, a, npmPresent).Some? ==> r.0 == st
    ensures a.tailwind != Npm ==> r.0.files == BuildFn(st, a, listing).0.files
  {
    match GateFn(st, c, a, npmPresent)
    case Some(o) => (st, o)
    case None =>
      var (st1, o1) := BuildFn(st, a, listing);
      if o1.Fail? then (st1, o1) else TailwindStepFn(st1, c, platform, a.tailwind, Resolve(st, a.appName))
  }

  /** Without npm the npm option creates nothing at all. */
  lemma NoNpmCreatesNothing(st: State, c: Codec, platform: string, a: Answers, listing: seq<Entry>)
    requires a.tailwind == Npm
    ensures CreateAppFn(st, c, platform, a, false, listing) == (st, Pass)
    ensures CreateAppAsWritten(st, c, platform, a, false, listing) == (st, Pass)
  {
  }

  /** As written, every npm run that gets past the template loop ends in
      TypeError with package.json untouched by the step. */
  lemma AsWrittenNpmRaises(st: State, c: Codec, platform: string, a: Answers, listing: seq<Entry>)
    requires a.tailwind == Npm && NpmUtils.CheckPackageFn(st, c, "tailwindcss").Ok?
    requires BuildFn(st, a, listing).1.Pass?
    ensures CreateAppAsWritten(st, c, platform, a, true, listing) == (BuildFn(st, a, listing).0, Fail(TypeError(MissingPlugins)))
  {
  }

  /** As intended, once Tailwind is set up and package.json in the app
      directory holds a `scripts` object, the step writes package.json
      with the parsed `build-css` fragment merged into `scripts` and
      every other key kept. */
  lemma CorrectedNpmMergesBuildCss(st: State, c: Codec, platform: string, appDir: Path,
                                   m: map<string, Value>, s: map<string, Value>, u: map<string, Value>)
    requires TailwindLegacy.SetupTailwindNpmFn(st, c, platform, appDir, []).1.Pass?
    requires var st1 := ChDirFn(TailwindLegacy.SetupTailwindNpmFn(st, c, platform, appDir, []).0, appDir);
      ReadJsonFn(st1, c, "package.json") == Ok(Obj(m))
    requires "scripts" in m && m["scripts"] == Obj(s)
    requires c.load("{" + BuildCss + "}") == Some(Obj(u))
    ensures var st1 := ChDirFn(TailwindLegacy.SetupTailwindNpmFn(st, c, platform, appDir, []).0, appDir);
      TailwindStepFn(st, c, platform, Npm, appDir) == WriteJsonFn(st1, c, "package.json", Obj(m["scripts" := Obj(s + u)]))
  {
  }

  /** A finished run (whatever the Tailwind choice) leaves every folder
      under the app directory, and the template loop's writes are the
      log's entries right after the folders were made, each resolved in
      the app directory. */
  lemma BuildWritesInApp(st: State, a: Answers, listing: seq<Entry>)
    requires StartsWith(st.cwd, "/") && BuildFn(st, a, listing).1.Pass?
    ensures var r := BuildFn(st, a, listing);
      var appDir := Resolve(st, a.appName);
      (forall p :: p in CliFolders() ==> Join(appDir, p) in r.0.dirs)
      && r.0.log == st.log + WritesOf(appDir, PlanAll(CliPlan(a), listing))
  {
    var appDir := Resolve(st, a.appName);
    var made := MakeAllFn(ChDirFn(MakeDirsFn(st, a.appName).0, appDir), CliFolders());
    FoldersInApp(st, a.appName, CliFolders());
    var acts := PlanAll(CliPlan(a), listing);
    var fin := ExecAllFn(made.0, acts);
    assert BuildFn(st, a, listing) == fin;
    ExecAllWrites(made.0, acts);
  }

  /** `create_app` with the Tailwind step as intended. */
  method CreateApp(h: Host, c: Codec, platform: string, a: Answers, npmPresent: bool, listing: seq<Entry>) returns (o: Outcome)
    modifies h
    ensures (h.Snap(), o) == CreateAppFn(old(h.Snap()), c, platform, a, npmPresent, listing)
  {
    if a.tailwind == Npm {
      if !npmPresent {
        return Pass;
      }
      var installed := NpmUtils.CheckNpmPackage(h, c, "tailwindcss");
      if installed.Err? {
        return Fail(installed.error);
      }
    }
    var appDir := Join(h.cwd, a.appName);
    o := h.MakeDirs(a.appName);
    if o.Fail? {
      return;
    }
    h.ChDir(appDir);
    o := MakeAll(h, CliFolders());
    if o.Fail? {
      return;
    }
    o := RunListing(h, CliPlan(a), listing);
    if o.Fail? {
      return;
    }
    match a.tailwind {
      case NoTailwind =>
      case Npm =>
        o := TailwindLegacy.SetupTailwindNpm(h, c, platform, appDir, []);
        if o.Pass? {
          o := TailwindLegacy.UpdatePackageJson(h, c, appDir, BuildCss);
        }
      case Standalone =>
        TailwindLegacy.SetupTailwindStandalone(h, platform, appDir);
    }
  }
}
