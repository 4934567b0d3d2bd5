/** The template loops of the two generator entry points: `main` of the
    packaged generator (src/hyperpytext/__init__.py, `Current`) and the
    older `create_app` (hyperpytext/__main__.py, `Legacy`). Each loop
    reads the template directory's listing and, template by template,
    decides from the name and the user's answers which records are
    written and with which substitutions. The answers are inputs; the
    captured time is an input. */
module Generators {
  import opened Base
  import opened Fs
  import opened Text
  import opened Templates
  import opened Timestamp

  datatype Variant = Current | Legacy

  /** The answers the server loop depends on. */
  datatype Server = Server(appName: string, auth: bool, example: bool, poetry: bool, now: Moment)

  datatype Tailwind = NoTailwind | Npm | Standalone

  /** The answers of the vanilla client, which also writes the server
      templates. */
  datatype Vanilla = Vanilla(server: Server, htmlFilename: string, tailwind: Tailwind,
                             plugins: seq<string>, fonts: bool, electron: bool)

  // ---------------------------------------------------------------------
  // Template names

  const DbFiles: seq<string> := ["db_primary.yaml", "db_cache.yaml", "db_queues.yaml"]

  /** The root templates written as single records. The older generator
      has no `.envrc` template. */
  function ServerRoots(variant: Variant): (roots: seq<string>)
    ensures variant.Legacy? ==> "envrc.yaml" !in roots
    ensures "env.yaml" in roots && "gitignore.yaml" in roots
  {
    match variant
    case Current => ["env.yaml", "envrc.yaml", "init.yaml", "readme.yaml", "uvicorn.yaml", "gitignore.yaml"]
    case Legacy => ["env.yaml", "init.yaml", "readme.yaml", "uvicorn.yaml", "gitignore.yaml"]
  }

  /** The vanilla generator adds the Tailwind input stylesheet. */
  function VanillaRoots(variant: Variant): (roots: seq<string>)
    ensures roots == ServerRoots(variant) + ["input_css.yaml"]
  {
    ServerRoots(variant) + ["input_css.yaml"]
  }

  const AuthTemplates: seq<string> := ["db_auth.yaml", "routes_auth.yaml", "routes_models.yaml"]

  // ---------------------------------------------------------------------
  // Substitutions

  /** A migration record: the file name's `{filename}` field becomes the
      migration name, and every marker in the content becomes the ISO
      stamp. */
  function MigrationRecord(rec: Record, prefix: string, now: Moment): Action {
    match Format(rec.filename, map["filename" := MigrationName(prefix, now)])
    case Err(e) => Raise(e)
    case Ok(f) => Create(f, ReplaceAll(rec.content, MigrationMarker, IsoStamp(now)))
  }

  function MigrationAll(rs: seq<Record>, prefix: string, now: Moment): (acts: seq<Action>)
    ensures |acts| == |rs| && forall i :: 0 <= i < |rs| ==> acts[i] == MigrationRecord(rs[i], prefix, now)
  {
    if rs == [] then [] else [MigrationRecord(rs[0], prefix, now)] + MigrationAll(rs[1..], prefix, now)
  }

  function MigrationEach(d: Doc, prefix: string, now: Moment): (acts: seq<Action>)
    ensures d.Many? ==> acts == MigrationAll(d.records, prefix, now)
    ensures d.One? ==> acts == [Raise(TypeError("string indices must be integers"))]
  {
    match d
    case One(_) => [Raise(TypeError("string indices must be integers"))]
    case Many(rs) => MigrationAll(rs, prefix, now)
  }

  /** A file name `p{filename}q` becomes `p<prefix>_<stamp>.py q`, and no
      marker is left in the content. */
  lemma MigrationRecordMeaning(rec: Record, prefix: string, now: Moment, p: string, q: string)
    requires rec.filename == p + "{filename}" + q && BraceFree(p) && BraceFree(q)
    ensures MigrationRecord(rec, prefix, now)
      == Create(p + MigrationName(prefix, now) + q, ReplaceAll(rec.content, MigrationMarker, IsoStamp(now)))
    ensures !Occurs(MigrationRecord(rec, prefix, now).content, MigrationMarker)
  {
    assert "{filename}" == "{" + "filename" + "}";
    assert rec.filename == p + ("{" + "filename" + "}") + q;
    FormatBetween(p, "filename", q, map["filename" := MigrationName(prefix, now)]);
    IsoStampRemovesMarker(rec.content, now);
  }

  const FakerLine: string := "faker = \"^30.1.0\""

  function PyprojectContext(s: Server): (ctx: map<string, string>)
    ensures ctx.Keys == {"app_name", "db_example_dependencies"}
    ensures ctx["app_name"] == s.appName
    ensures ctx["db_example_dependencies"] == if s.example then FakerLine else ""
  {
    map["app_name" := s.appName, "db_example_dependencies" := if s.example then FakerLine else ""]
  }

  /** `pyproject.yaml`: the content is formatted with the app name and
      the example dependency line. */
  function PyprojectAction(s: Server, d: Doc): Action {
    match RecordOf(d)
    case Err(e) => Raise(e)
    case Ok(rec) => FormatContent(rec, PyprojectContext(s))
  }

  /** With the two fields in the content, the file holds the app name and
      the faker line exactly when the example was chosen. */
  lemma PyprojectMeaning(s: Server, rec: Record, p: string, m: string, q: string)
    requires rec.content == p + "{app_name}" + (m + "{db_example_dependencies}" + q)
    requires BraceFree(p) && BraceFree(m) && BraceFree(q)
    ensures PyprojectAction(s, One(rec))
      == Create(rec.filename, p + s.appName + (m + (if s.example then FakerLine else "") + q))
    ensures s.example ==> Occurs(PyprojectAction(s, One(rec)).content, FakerLine)
  {
    var ctx := PyprojectContext(s);
    assert "{app_name}" == "{" + "app_name" + "}";
    assert "{db_example_dependencies}" == "{" + "db_example_dependencies" + "}";
    FormatTwo(p, "app_name", m, "db_example_dependencies", q, ctx);
    if s.example {
      OccursInMiddle(m, FakerLine, q);
      OccursExtended(p + s.appName, m + FakerLine + q, FakerLine);
    }
  }

  /** `electron.yaml`: every brace is doubled and the result formatted
      with the app name. */
  function ElectronAction(appName: string, d: Doc): Action {
    match RecordOf(d)
    case Err(e) => Raise(e)
    case Ok(rec) =>
      match Format(DoubleBraces(rec.content), map["app_name" := appName])
      case Err(e) => Raise(e)
      case Ok(t) => Create(rec.filename, t)
  }

  /** The doubling undoes the formatting: the Electron file is the
      template's content unchanged, and `app_name` is never substituted. */
  lemma ElectronVerbatim(appName: string, rec: Record)
    ensures ElectronAction(appName, One(rec)) == Create(rec.filename, rec.content)
  {
    FormatUndoesDoubling(rec.content, map["app_name" := appName]);
  }

  const ConfigArity: string := "update_tailwind_config() takes 2 positional arguments but 3 were given"
  const SetupArity: string := "setup_tailwind_npm() takes 2 positional arguments but 3 were given"

  /** A Tailwind config template: written, then its markers rewritten.
      The older generator calls the two-parameter `update_tailwind_config`
      with three arguments, which raises TypeError. */
  function TailwindConfigActions(variant: Variant, d: Doc, plugins: seq<string>, fonts: bool): (acts: seq<Action>)
    ensures d.One? && variant.Current? ==> acts == [Create(d.record.filename, d.record.content), PatchConfig(d.record.filename, plugins, fonts)]
    ensures d.One? && variant.Legacy? ==> acts == [Create(d.record.filename, d.record.content), Raise(TypeError(ConfigArity))]
    ensures d.Many? ==> |acts| == 1 && acts[0].Raise?
  {
    match RecordOf(d)
    case Err(e) => [Raise(e)]
    case Ok(rec) =>
      [Create(rec.filename, rec.content),
       if variant.Current? then PatchConfig(rec.filename, plugins, fonts) else Raise(TypeError(ConfigArity))]
  }

  // ---------------------------------------------------------------------
  // The branches, in the order the loops test them

  function AppBranch(e: Entry): seq<Action> {
    if e.name == "app.yaml" then CreateEach(e.doc) else []
  }

  function ServerApiBranch(e: Entry): seq<Action> {
    if e.name == "api.yaml" then CreateEach(e.doc) else []
  }

  function VanillaApiBranch(html: string, e: Entry): seq<Action> {
    if e.name == "api.yaml" then FormatContents(e.doc, map["html_filename" := html]) else []
  }

  function IndexBranch(html: string, e: Entry): seq<Action> {
    if e.name == "index.yaml" then FormatSingle(e.doc, map["filename" := html], map["title" := html]) else []
  }

  function DbBranch(e: Entry): seq<Action> {
    if e.name in DbFiles then CreateEach(e.doc) else []
  }

  function ExampleBranch(s: Server, e: Entry): seq<Action> {
    if e.name == "db_primary_example.yaml" && s.example then MigrationEach(e.doc, "primary", s.now) else []
  }

  function AuthBranch(s: Server, e: Entry): seq<Action> {
    if !s.auth then []
    else
      (if e.name == "db_auth.yaml" then MigrationEach(e.doc, "auth", s.now) else [])
      + (if e.name == "routes_auth.yaml" then CreateEach(e.doc) else [])
      + (if e.name == "routes_models.yaml" then CreateEach(e.doc) else [])
  }

  function UtilsBranch(e: Entry): seq<Action> {
    if e.name == "utils.yaml" then CreateEach(e.doc) else []
  }

  function RootBranch(roots: seq<string>, e: Entry): seq<Action> {
    if e.name in roots then CreateSingle(e.doc) else []
  }

  /** The packaged generator writes `pyproject.toml` only for Poetry; the
      older one always does. */
  function PyprojectBranch(variant: Variant, s: Server, e: Entry): seq<Action> {
    if e.name == "pyproject.yaml" && (variant.Legacy? || s.poetry) then [PyprojectAction(s, e.doc)] else []
  }

  function TailwindConfigBranch(variant: Variant, v: Vanilla, e: Entry): seq<Action> {
    if e.name == "tailwind_config.yaml" && v.tailwind != NoTailwind then TailwindConfigActions(variant, e.doc, v.plugins, v.fonts) else []
  }

  function ElectronBranch(v: Vanilla, e: Entry): seq<Action> {
    if e.name == "electron.yaml" && v.electron then [ElectronAction(v.server.appName, e.doc)] else []
  }

  // ---------------------------------------------------------------------
  // One entry of each loop

  /** The React server loop (src/hyperpytext/__init__.py:137-227,
      hyperpytext/__main__.py:119-209). */
  function ServerEntry(variant: Variant, s: Server, e: Entry): seq<Action> {
    if !IsYaml(e) then []
    else
      AppBranch(e) + ServerApiBranch(e) + DbBranch(e) + ExampleBranch(s, e) + AuthBranch(s, e)
      + UtilsBranch(e) + RootBranch(ServerRoots(variant), e) + PyprojectBranch(variant, s, e)
  }

  /** The vanilla loop (src/hyperpytext/__init__.py:420-535,
      hyperpytext/__main__.py:382-497). */
  function VanillaEntry(variant: Variant, v: Vanilla, e: Entry): seq<Action> {
    if !IsYaml(e) then []
    else
      AppBranch(e) + VanillaApiBranch(v.htmlFilename, e) + IndexBranch(v.htmlFilename, e) + DbBranch(e)
      + ExampleBranch(v.server, e) + AuthBranch(v.server, e) + UtilsBranch(e)
      + RootBranch(VanillaRoots(variant), e) + PyprojectBranch(variant, v.server, e)
      + TailwindConfigBranch(variant, v, e) + ElectronBranch(v, e)
  }

  /** The React client loop. The packaged generator patches
      `tailwind.config.js` and writes every other template as it is; the
      older one writes only the config and `globals.css`. */
  function ReactClientEntry(variant: Variant, plugins: seq<string>, fonts: bool, e: Entry): seq<Action> {
    if !IsYaml(e) then []
    else if e.name == "tailwind.config.js.yaml" then TailwindConfigActions(variant, e.doc, plugins, fonts)
    else if variant.Current? || e.name == "globals.css.yaml" then CreateSingle(e.doc)
    else []
  }

  function ServerPlan(variant: Variant, s: Server): Entry -> seq<Action> {
    e => ServerEntry(variant, s, e)
  }

  function VanillaPlan(variant: Variant, v: Vanilla): Entry -> seq<Action> {
    e => VanillaEntry(variant, v, e)
  }

  function ReactClientPlan(variant: Variant, plugins: seq<string>, fonts: bool): Entry -> seq<Action> {
    e => ReactClientEntry(variant, plugins, fonts, e)
  }

  // ---------------------------------------------------------------------
  // Gating

  /** Only YAML templates are read; anything else in the directory
      writes nothing. */
  lemma NonYamlSkipped(variant: Variant, s: Server, v: Vanilla, plugins: seq<string>, fonts: bool, e: Entry)
    requires !IsYaml(e)
    ensures ServerEntry(variant, s, e) == [] && VanillaEntry(variant, v, e) == []
    ensures ReactClientEntry(variant, plugins, fonts, e) == []
  {
  }

  /** None of the loops' other template names is an auth template. */
  lemma AuthNameIsNoOther(variant: Variant, name: string)
    requires name in AuthTemplates
    ensures name != "app.yaml" && name != "api.yaml" && name != "index.yaml" && name !in DbFiles
    ensures name != "db_primary_example.yaml" && name != "utils.yaml" && name !in VanillaRoots(variant)
    ensures name != "pyproject.yaml" && name != "tailwind_config.yaml" && name != "electron.yaml"
    ensures "db_auth.yaml" != "routes_auth.yaml" && "db_auth.yaml" != "routes_models.yaml" && "routes_auth.yaml" != "routes_models.yaml"
  {
    assert |"db_auth.yaml"| == 12 && |"routes_auth.yaml"| == 16 && |"routes_models.yaml"| == 18;
    assert "db_auth.yaml"[0] == 'd' && "db_auth.yaml"[3] == 'a';
    assert "routes_auth.yaml"[0] == 'r' && "routes_models.yaml"[0] == 'r';
  }

  /** Without authentication the three auth templates write nothing. */
  lemma AuthGated(variant: Variant, s: Server, v: Vanilla, e: Entry)
    requires e.name in AuthTemplates && !s.auth && !v.server.auth
    ensures ServerEntry(variant, s, e) == [] && VanillaEntry(variant, v, e) == []
  {
    AuthNameIsNoOther(variant, e.name);
  }

  /** With authentication the route templates are written verbatim and
      the auth migration is named from the captured time. */
  lemma AuthWritten(variant: Variant, s: Server, e: Entry)
    requires s.auth && IsYaml(e)
    ensures e.name == "routes_auth.yaml" || e.name == "routes_models.yaml" ==> ServerEntry(variant, s, e) == CreateEach(e.doc)
    ensures e.name == "db_auth.yaml" ==> ServerEntry(variant, s, e) == MigrationEach(e.doc, "auth", s.now)
  {
    if e.name in AuthTemplates {
      AuthNameIsNoOther(variant, e.name);
      OneOfEight(AppBranch(e), ServerApiBranch(e), DbBranch(e), ExampleBranch(s, e), AuthBranch(s, e),
        UtilsBranch(e), RootBranch(ServerRoots(variant), e), PyprojectBranch(variant, s, e),
        5, AuthBranch(s, e));
    }
  }

  /** `db_primary_example.yaml` is none of the loops' other names. */
  lemma ExampleNameIsNoOther(variant: Variant)
    ensures var n := "db_primary_example.yaml";
      n != "app.yaml" && n != "api.yaml" && n != "index.yaml" && n !in DbFiles && n !in AuthTemplates
      && n != "utils.yaml" && n !in VanillaRoots(variant) && n != "pyproject.yaml"
      && n != "tailwind_config.yaml" && n != "electron.yaml"
  {
    assert |"db_primary_example.yaml"| == 23;
  }

  /** The example migration is written only when the example was chosen,
      and then under the primary migration name. */
  lemma ExampleGated(variant: Variant, s: Server, v: Vanilla, e: Entry)
    requires e.name == "db_primary_example.yaml"
    ensures ServerEntry(variant, s, e) == if s.example then MigrationEach(e.doc, "primary", s.now) else []
    ensures VanillaEntry(variant, v, e) == if v.server.example then MigrationEach(e.doc, "primary", v.server.now) else []
  {
    ServerExampleGated(variant, s, e);
    VanillaExampleGated(variant, v, e);
  }

  lemma ServerExampleGated(variant: Variant, s: Server, e: Entry)
    requires e.name == "db_primary_example.yaml"
    ensures ServerEntry(variant, s, e) == if s.example then MigrationEach(e.doc, "primary", s.now) else []
  {
    ExampleNameIsNoOther(variant);
    assert IsYaml(e) by { assert e.name[18..] == ".yaml"; }
    OneOfEight(AppBranch(e), ServerApiBranch(e), DbBranch(e), ExampleBranch(s, e), AuthBranch(s, e),
      UtilsBranch(e), RootBranch(ServerRoots(variant), e), PyprojectBranch(variant, s, e),
      4, ExampleBranch(s, e));
  }

  lemma VanillaExampleGated(variant: Variant, v: Vanilla, e: Entry)
    requires e.name == "db_primary_example.yaml"
    ensures VanillaEntry(variant, v, e) == if v.server.example then MigrationEach(e.doc, "primary", v.server.now) else []
  {
    ExampleNameIsNoOther(variant);
    assert IsYaml(e) by { assert e.name[18..] == ".yaml"; }
    OneOfEleven(AppBranch(e), VanillaApiBranch(v.htmlFilename, e), IndexBranch(v.htmlFilename, e), DbBranch(e),
      ExampleBranch(v.server, e), AuthBranch(v.server, e), UtilsBranch(e), RootBranch(VanillaRoots(variant), e),
      PyprojectBranch(variant, v.server, e), TailwindConfigBranch(variant, v, e), ElectronBranch(v, e),
      5, ExampleBranch(v.server, e));
  }

  /** `pyproject.yaml` is none of the loops' other names. */
  lemma PyprojectNameIsNoOther(variant: Variant)
    ensures var n := "pyproject.yaml";
      n != "app.yaml" && n != "api.yaml" && n != "index.yaml" && n !in DbFiles && n !in AuthTemplates
      && n != "db_primary_example.yaml" && n != "utils.yaml" && n !in VanillaRoots(variant)
      && n != "tailwind_config.yaml" && n != "electron.yaml"
  {
    assert "pyproject.yaml"[0] == 'p';
  }

  /** The packaged generator writes `pyproject.toml` only for Poetry; the
      older one writes it always. */
  lemma PyprojectGated(variant: Variant, s: Server, v: Vanilla, e: Entry)
    requires e.name == "pyproject.yaml"
    ensures ServerEntry(variant, s, e) == if variant.Legacy? || s.poetry then [PyprojectAction(s, e.doc)] else []
    ensures VanillaEntry(variant, v, e) == if variant.Legacy? || v.server.poetry then [PyprojectAction(v.server, e.doc)] else []
  {
    ServerPyprojectGated(variant, s, e);
    VanillaPyprojectGated(variant, v, e);
  }

  lemma ServerPyprojectGated(variant: Variant, s: Server, e: Entry)
    requires e.name == "pyproject.yaml"
    ensures ServerEntry(variant, s, e) == if variant.Legacy? || s.poetry then [PyprojectAction(s, e.doc)] else []
  {
    PyprojectNameIsNoOther(variant);
    assert IsYaml(e) by { assert e.name[9..] == ".yaml"; }
    OneOfEight(AppBranch(e), ServerApiBranch(e), DbBranch(e), ExampleBranch(s, e), AuthBranch(s, e),
      UtilsBranch(e), RootBranch(ServerRoots(variant), e), PyprojectBranch(variant, s, e),
      8, PyprojectBranch(variant, s, e));
  }

  lemma VanillaPyprojectGated(variant: Variant, v: Vanilla, e: Entry)
    requires e.name == "pyproject.yaml"
    ensures VanillaEntry(variant, v, e) == if variant.Legacy? || v.server.poetry then [PyprojectAction(v.server, e.doc)] else []
  {
    PyprojectNameIsNoOther(variant);
    assert IsYaml(e) by { assert e.name[9..] == ".yaml"; }
    OneOfEleven(AppBranch(e), VanillaApiBranch(v.htmlFilename, e), IndexBranch(v.htmlFilename, e), DbBranch(e),
      ExampleBranch(v.server, e), AuthBranch(v.server, e), UtilsBranch(e), RootBranch(VanillaRoots(variant), e),
      PyprojectBranch(variant, v.server, e), TailwindConfigBranch(variant, v, e), ElectronBranch(v, e),
      9, PyprojectBranch(variant, v.server, e));
  }

  /** The vanilla-only names are none of the loops' other names. */
  lemma VanillaNamesAreNoOther(variant: Variant, n: string)
    requires n in ["index.yaml", "tailwind_config.yaml", "electron.yaml"]
    ensures n != "app.yaml" && n != "api.yaml" && n !in DbFiles && n !in AuthTemplates
      && n != "db_primary_example.yaml" && n != "utils.yaml" && n !in VanillaRoots(variant) && n != "pyproject.yaml"
    ensures n == "index.yaml" ==> n != "tailwind_config.yaml" && n != "electron.yaml"
    ensures n == "tailwind_config.yaml" ==> n != "index.yaml" && n != "electron.yaml"
    ensures n == "electron.yaml" ==> n != "index.yaml" && n != "tailwind_config.yaml"
  {
    assert |"index.yaml"| == 10 && |"tailwind_config.yaml"| == 20 && |"electron.yaml"| == 13;
    assert "index.yaml"[0] == 'i' && "index.yaml"[1] == 'n' && "index.yaml"[2] == 'd';
    assert "electron.yaml"[0] == 'e' && "electron.yaml"[1] == 'l';
  }

  /** The Electron main file is written only when Electron was chosen,
      and then verbatim. */
  lemma ElectronGated(variant: Variant, v: Vanilla, rec: Record)
    ensures var e := Entry("electron.yaml", One(rec));
      VanillaEntry(variant, v, e) == if v.electron then [Create(rec.filename, rec.content)] else []
  {
    var e := Entry("electron.yaml", One(rec));
    VanillaNamesAreNoOther(variant, e.name);
    ElectronVerbatim(v.server.appName, rec);
    var b := ElectronBranch(v, e);
    assert AppBranch(e) + VanillaApiBranch(v.htmlFilename, e) + IndexBranch(v.htmlFilename, e) + DbBranch(e)
      + ExampleBranch(v.server, e) + AuthBranch(v.server, e) + UtilsBranch(e) + RootBranch(VanillaRoots(variant), e) == [];
    assert PyprojectBranch(variant, v.server, e) + TailwindConfigBranch(variant, v, e) == [];
    assert VanillaEntry(variant, v, e) == [] + b;
  }

  /** The vanilla Tailwind config is written only when Tailwind was
      chosen; then the packaged generator patches it and the older one
      raises TypeError after the write. */
  lemma TailwindConfigGated(variant: Variant, v: Vanilla, rec: Record)
    ensures var e := Entry("tailwind_config.yaml", One(rec));
      VanillaEntry(variant, v, e)
        == if v.tailwind == NoTailwind then []
           else if variant.Current? then [Create(rec.filename, rec.content), PatchConfig(rec.filename, v.plugins, v.fonts)]
           else [Create(rec.filename, rec.content), Raise(TypeError(ConfigArity))]
  {
    var e := Entry("tailwind_config.yaml", One(rec));
    VanillaNamesAreNoOther(variant, e.name);
    var b := TailwindConfigBranch(variant, v, e);
    assert AppBranch(e) + VanillaApiBranch(v.htmlFilename, e) + IndexBranch(v.htmlFilename, e) + DbBranch(e)
      + ExampleBranch(v.server, e) + AuthBranch(v.server, e) + UtilsBranch(e) + RootBranch(VanillaRoots(variant), e) == [];
    assert PyprojectBranch(variant, v.server, e) == [] && ElectronBranch(v, e) == [];
    assert VanillaEntry(variant, v, e) == [] + [] + b + [];
    assert [] + [] + b + [] == b;
  }

  lemma IndexRecordFormatted(html: string, p: string, q: string, p2: string, q2: string)
    requires BraceFree(p) && BraceFree(q) && BraceFree(p2) && BraceFree(q2)
    ensures FormatRecord(Record(p + "{filename}" + q, p2 + "{title}" + q2), map["filename" := html], map["title" := html])
      == Create(p + html + q, p2 + html + q2)
  {
    assert "{filename}" == "{" + "filename" + "}" && "{title}" == "{" + "title" + "}";
    FormatBetween(p, "filename", q, map["filename" := html]);
    FormatBetween(p2, "title", q2, map["title" := html]);
  }

  /** The index page: `{filename}` in its name and `{title}` in its
      content both become the chosen HTML name. */
  lemma IndexWritten(variant: Variant, v: Vanilla, p: string, q: string, p2: string, q2: string)
    requires BraceFree(p) && BraceFree(q) && BraceFree(p2) && BraceFree(q2)
    ensures var e := Entry("index.yaml", One(Record(p + "{filename}" + q, p2 + "{title}" + q2)));
      VanillaEntry(variant, v, e) == [Create(p + v.htmlFilename + q, p2 + v.htmlFilename + q2)]
  {
    var rec := Record(p + "{filename}" + q, p2 + "{title}" + q2);
    var e := Entry("index.yaml", One(rec));
    VanillaNamesAreNoOther(variant, e.name);
    var html := v.htmlFilename;
    IndexRecordFormatted(html, p, q, p2, q2);
    assert IsYaml(e) by { assert e.name[|e.name| - 5..] == ".yaml"; }
    OneOfEleven(AppBranch(e), VanillaApiBranch(v.htmlFilename, e), IndexBranch(v.htmlFilename, e), DbBranch(e),
      ExampleBranch(v.server, e), AuthBranch(v.server, e), UtilsBranch(e), RootBranch(VanillaRoots(variant), e),
      PyprojectBranch(variant, v.server, e), TailwindConfigBranch(variant, v, e), ElectronBranch(v, e),
      3, [Create(p + html + q, p2 + html + q2)]);
  }

  /** `api.yaml` is none of the loops' other names. */
  lemma ApiNameIsNoOther(variant: Variant)
    ensures var n := "api.yaml";
      n != "app.yaml" && n != "index.yaml" && n !in DbFiles && n !in AuthTemplates
      && n != "db_primary_example.yaml" && n != "utils.yaml" && n !in VanillaRoots(variant) && n != "pyproject.yaml"
      && n != "tailwind_config.yaml" && n != "electron.yaml"
  {
    assert "api.yaml"[0] == 'a' && "api.yaml"[1] == 'p' && "api.yaml"[2] == 'i';
  }

  /** The React server writes the API records verbatim; the vanilla
      generator formats their content with the HTML name. */
  lemma ApiWritten(variant: Variant, s: Server, v: Vanilla, d: Doc)
    ensures ServerEntry(variant, s, Entry("api.yaml", d)) == CreateEach(d)
    ensures VanillaEntry(variant, v, Entry("api.yaml", d)) == FormatContents(d, map["html_filename" := v.htmlFilename])
  {
    ServerApiWritten(variant, s, d);
    VanillaApiWritten(variant, v, d);
  }

  lemma ServerApiWritten(variant: Variant, s: Server, d: Doc)
    ensures ServerEntry(variant, s, Entry("api.yaml", d)) == CreateEach(d)
  {
    var e := Entry("api.yaml", d);
    ApiNameIsNoOther(variant);
    OneOfEight(AppBranch(e), ServerApiBranch(e), DbBranch(e), ExampleBranch(s, e), AuthBranch(s, e),
      UtilsBranch(e), RootBranch(ServerRoots(variant), e), PyprojectBranch(variant, s, e),
      2, CreateEach(d));
  }

  lemma VanillaApiWritten(variant: Variant, v: Vanilla, d: Doc)
    ensures VanillaEntry(variant, v, Entry("api.yaml", d)) == FormatContents(d, map["html_filename" := v.htmlFilename])
  {
    var e := Entry("api.yaml", d);
    ApiNameIsNoOther(variant);
    OneOfEleven(AppBranch(e), VanillaApiBranch(v.htmlFilename, e), IndexBranch(v.htmlFilename, e), DbBranch(e),
      ExampleBranch(v.server, e), AuthBranch(v.server, e), UtilsBranch(e), RootBranch(VanillaRoots(variant), e),
      PyprojectBranch(variant, v.server, e), TailwindConfigBranch(variant, v, e), ElectronBranch(v, e),
      2, FormatContents(d, map["html_filename" := v.htmlFilename]));
  }

  /** A vanilla API record's `{html_filename}` becomes the HTML name; its
      file name is kept. */
  lemma ApiRecordFormatted(html: string, f: string, p: string, q: string)
    requires BraceFree(p) && BraceFree(q)
    ensures FormatContent(Record(f, p + "{html_filename}" + q), map["html_filename" := html]) == Create(f, p + html + q)
  {
    assert "{html_filename}" == "{" + "html_filename" + "}";
    FormatBetween(p, "html_filename", q, map["html_filename" := html]);
  }

  /** No root template name is one of the loops' other names. */
  lemma RootNameIsNoOther(variant: Variant, n: string)
    requires n in VanillaRoots(Current)
    ensures n != "app.yaml" && n != "api.yaml" && n != "index.yaml" && n !in DbFiles && n !in AuthTemplates
      && n != "db_primary_example.yaml" && n != "utils.yaml" && n != "pyproject.yaml"
      && n != "tailwind_config.yaml" && n != "electron.yaml"
  {
    assert "env.yaml"[0] == 'e' && "envrc.yaml"[0] == 'e' && "init.yaml"[0] == 'i';
    assert "readme.yaml"[0] == 'r' && "uvicorn.yaml"[0] == 'u' && "gitignore.yaml"[0] == 'g' && "input_css.yaml"[0] == 'i';
    assert |"init.yaml"| == 9 && |"readme.yaml"| == 11 && |"input_css.yaml"| == 14;
  }

  /** A root template of the server's list is written as its single
      record. */
  lemma RootWritten(variant: Variant, s: Server, e: Entry)
    requires e.name in ServerRoots(variant)
    ensures ServerEntry(variant, s, e) == CreateSingle(e.doc)
  {
    var n := e.name;
    RootsWithinCurrent(variant, n);
    ServerBranchesSkipRoot(variant, s, e);
    RootNameIsYaml(n);
    assert IsYaml(e);
    OneOfEight(AppBranch(e), ServerApiBranch(e), DbBranch(e), ExampleBranch(s, e), AuthBranch(s, e),
      UtilsBranch(e), RootBranch(ServerRoots(variant), e), PyprojectBranch(variant, s, e),
      7, CreateSingle(e.doc));
  }

  /** No branch of the server loop other than the roots' takes a root
      template. */
  lemma ServerBranchesSkipRoot(variant: Variant, s: Server, e: Entry)
    requires e.name in VanillaRoots(Current)
    ensures AppBranch(e) == [] && ServerApiBranch(e) == [] && DbBranch(e) == []
    ensures ExampleBranch(s, e) == [] && AuthBranch(s, e) == [] && UtilsBranch(e) == []
    ensures PyprojectBranch(variant, s, e) == []
  {
    RootNameIsNoOther(variant, e.name);
  }

  /** The older generator's roots are among the packaged generator's. */
  lemma RootsWithinCurrent(variant: Variant, n: string)
    requires n in ServerRoots(variant)
    ensures n in VanillaRoots(Current)
  {
    if variant.Legacy? {
      assert n == "env.yaml" || n == "init.yaml" || n == "readme.yaml" || n == "uvicorn.yaml" || n == "gitignore.yaml";
    }
  }

  lemma RootNameIsYaml(n: string)
    requires n in VanillaRoots(Current)
    ensures EndsWith(n, ".yaml")
  {
    var k := |n| - 5;
    assert n[k..] == ".yaml" by {
      if n == "env.yaml" {} else if n == "envrc.yaml" {} else if n == "init.yaml" {}
      else if n == "readme.yaml" {} else if n == "uvicorn.yaml" {} else if n == "gitignore.yaml" {}
      else { assert n == "input_css.yaml"; }
    }
  }

  /** Only the packaged generator writes `.envrc`. */
  lemma EnvrcOnlyCurrent(s: Server, d: Doc)
    ensures ServerEntry(Current, s, Entry("envrc.yaml", d)) == CreateSingle(d)
    ensures ServerEntry(Legacy, s, Entry("envrc.yaml", d)) == []
  {
    var e := Entry("envrc.yaml", d);
    RootWritten(Current, s, e);
    EnvrcSkippedByLegacy(s, d);
  }

  lemma EnvrcSkippedByLegacy(s: Server, d: Doc)
    ensures ServerEntry(Legacy, s, Entry("envrc.yaml", d)) == []
  {
    var e := Entry("envrc.yaml", d);
    var variant := Legacy;
    assert e.name in VanillaRoots(Current) by { assert VanillaRoots(Current)[1] == "envrc.yaml"; }
    ServerBranchesSkipRoot(variant, s, e);
    assert RootBranch(ServerRoots(variant), e) == [];
    OneOfEight(AppBranch(e), ServerApiBranch(e), DbBranch(e), ExampleBranch(s, e), AuthBranch(s, e),
      UtilsBranch(e), RootBranch(ServerRoots(variant), e), PyprojectBranch(variant, s, e),
      7, []);
  }

  /** The React client: in the packaged generator every YAML template
      other than the config is written as it is; the older one writes
      only the config and `globals.css`. */
  lemma ReactClientWrites(plugins: seq<string>, fonts: bool, e: Entry)
    requires IsYaml(e) && e.name != "tailwind.config.js.yaml"
    ensures ReactClientEntry(Current, plugins, fonts, e) == CreateSingle(e.doc)
    ensures ReactClientEntry(Legacy, plugins, fonts, e) == if e.name == "globals.css.yaml" then CreateSingle(e.doc) else []
  {
  }

  /** The React client config is written, then patched with the chosen
      plugins and fonts. */
  lemma ReactClientConfig(variant: Variant, plugins: seq<string>, fonts: bool, rec: Record)
    ensures var e := Entry("tailwind.config.js.yaml", One(rec));
      ReactClientEntry(variant, plugins, fonts, e)
        == [Create(rec.filename, rec.content),
            if variant.Current? then PatchConfig(rec.filename, plugins, fonts) else Raise(TypeError(ConfigArity))]
  {
    assert EndsWith("tailwind.config.js.yaml", ".yaml");
  }
}
