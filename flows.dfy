/** The generators' flows around the template loops: the project and
    folder layout, the module-level server dependency list, the Tailwind,
    Electron, Vite and Shadcn steps, and the loops themselves, in the
    order `main` (src/hyperpytext/__init__.py) and `create_app`
    (hyperpytext/__main__.py) run them. Prompts, `uv`/`poetry` and the
    npm presence checks are left out: each flow starts from the user's
    answers and runs as if the tools were installed. */
module Flows {
  import opened Base
  import opened Fs
  import opened Templates
  import opened Generators
  import TailwindSrc
  import TailwindLegacy
  import Electron
  import Vite
  import Shadcn
  import NpmUtils

  // ---------------------------------------------------------------------
  // server_dependencies

  const BaseDependencies: seq<string> := [
    "jinja2~=3.1.2", "ipython~=8.28.0", "uvicorn~=0.32.0", "fastapi~=0.115.0",
    "python-dotenv~=1.0.0", "piccolo[all]~=1.22.0", "piccolo-api~=1.5.2", "yagmail~=0.15.293"
  ]

  const FakerDependency: string := "faker~=30.1.0"

  /** The module-level `server_dependencies` list. It lives as long as the
      process: each run of `main` that includes the example appends to
      the same list, and nothing resets it. */
  class ServerDependencies {
    var items: seq<string>

    constructor ()
      ensures items == BaseDependencies
    {
      items := BaseDependencies;
    }

    method AddExample(example: bool)
      modifies this
      ensures items == old(items) + (if example then [FakerDependency] else [])
    {
      if example {
        items := items + [FakerDependency];
      }
    }
  }

  /** The list after runs of `main` in one process, each with its answer
      to the example prompt. */
  function AfterRuns(runs: seq<bool>): seq<string> {
    if runs == [] then BaseDependencies
    else AfterRuns(runs[..|runs| - 1]) + (if runs[|runs| - 1] then [FakerDependency] else [])
  }

  function Count(runs: seq<bool>): nat {
    if runs == [] then 0 else Count(runs[..|runs| - 1]) + (if runs[|runs| - 1] then 1 else 0)
  }

  /** The base list always comes first; after it there is one faker entry
      per run with the example and nothing else. */
  lemma {:induction false} AfterRunsMeaning(runs: seq<bool>)
    ensures |AfterRuns(runs)| == |BaseDependencies| + Count(runs)
    ensures AfterRuns(runs)[..|BaseDependencies|] == BaseDependencies
    ensures forall i :: |BaseDependencies| <= i < |AfterRuns(runs)| ==> AfterRuns(runs)[i] == FakerDependency
    decreases |runs|
  {
    if runs != [] {
      var init := runs[..|runs| - 1];
      AfterRunsMeaning(init);
      var prev := AfterRuns(init);
      assert AfterRuns(runs)[..|prev|] == prev;
    }
  }

  /** Faker is in the list exactly when some run chose the example. */
  lemma {:induction false} FakerListedIff(runs: seq<bool>)
    ensures FakerDependency in AfterRuns(runs) <==> true in runs
    decreases |runs|
  {
    if runs == [] {
      assert FakerDependency[0] == 'f' && FakerDependency[1] == 'a' && FakerDependency[2] == 'k';
      assert "fastapi~=0.115.0"[2] == 's';
      assert FakerDependency !in BaseDependencies;
    } else {
      var init := runs[..|runs| - 1];
      FakerListedIff(init);
      assert runs == init + [runs[|runs| - 1]];
      assert true in runs <==> true in init || runs[|runs| - 1];
    }
  }

  // ---------------------------------------------------------------------
  // Folder layouts

  const ServerFolders: seq<(Path, seq<Path>)> := [("server/src/app", ["api/routes", "db", "utils"])]

  const VanillaFolders: seq<(Path, seq<Path>)> := [
    ("src/app", ["api/routes", "components", "db", "utils", "templates"]),
    ("src/assets", ["fonts", "icons", "images", "svg-loaders", "css", "js"])
  ]

  function Subpaths(base: Path, subs: seq<Path>): (ps: seq<Path>)
    ensures |ps| == |subs| && forall i :: 0 <= i < |subs| ==> ps[i] == Join(base, subs[i])
  {
    if subs == [] then [] else [Join(base, subs[0])] + Subpaths(base, subs[1..])
  }

  /** `os.path.join(base, subdir)` for every base and subdir, in order. */
  function FolderPaths(folders: seq<(Path, seq<Path>)>): seq<Path> {
    if folders == [] then [] else Subpaths(folders[0].0, folders[0].1) + FolderPaths(folders[1..])
  }

  lemma {:induction false} FolderPathsAppend(a: seq<(Path, seq<Path>)>, b: seq<(Path, seq<Path>)>)
    ensures FolderPaths(a + b) == FolderPaths(a) + FolderPaths(b)
    decreases |a|
  {
    if a == [] {
      assert a + b == b;
    } else {
      assert (a + b)[0] == a[0];
      assert (a + b)[1..] == a[1..] + b;
      FolderPathsAppend(a[1..], b);
      AppendAssoc(Subpaths(a[0].0, a[0].1), FolderPaths(a[1..]), FolderPaths(b));
    }
  }

  /** The layout has every base joined with each of its subfolders. */
  lemma FolderLayouts()
    ensures FolderPaths(ServerFolders) == ["server/src/app/api/routes", "server/src/app/db", "server/src/app/utils"]
    ensures |FolderPaths(VanillaFolders)| == 11
    ensures FolderPaths(VanillaFolders)[0] == "src/app/api/routes" && FolderPaths(VanillaFolders)[10] == "src/assets/js"
  {
    ServerLayout();
    VanillaLayout();
  }

  lemma ServerLayout()
    ensures FolderPaths(ServerFolders) == ["server/src/app/api/routes", "server/src/app/db", "server/src/app/utils"]
  {
    assert FolderPaths(ServerFolders[1..]) == [];
    JoinInsertsSlash("server/src/app", "api/routes");
    JoinInsertsSlash("server/src/app", "db");
    JoinInsertsSlash("server/src/app", "utils");
    var ps := Subpaths("server/src/app", ["api/routes", "db", "utils"]);
    assert ps[0] == "server/src/app" + "/" + "api/routes" == "server/src/app/api/routes";
    assert ps[1] == "server/src/app" + "/" + "db" == "server/src/app/db";
    assert ps[2] == "server/src/app" + "/" + "utils" == "server/src/app/utils";
    assert FolderPaths(ServerFolders) == ps + [];
    assert ps + [] == ps;
  }

  lemma VanillaLayout()
    ensures |FolderPaths(VanillaFolders)| == 11
    ensures FolderPaths(VanillaFolders)[0] == "src/app/api/routes" && FolderPaths(VanillaFolders)[10] == "src/assets/js"
  {
    assert FolderPaths(VanillaFolders[1..]) == Subpaths("src/assets", VanillaFolders[1].1) + FolderPaths(VanillaFolders[2..]);
    assert FolderPaths(VanillaFolders[2..]) == [];
    JoinInsertsSlash("src/app", "api/routes");
    JoinInsertsSlash("src/assets", "js");
    assert "src/app" + "/" + "api/routes" == "src/app/api/routes";
    assert "src/assets" + "/" + "js" == "src/assets/js";
  }

  /** The paths of a suffix of the layout: the first base's subfolders,
      then the rest. */
  lemma FolderPathsFrom(folders: seq<(Path, seq<Path>)>, i: nat)
    requires i < |folders|
    ensures FolderPaths(folders[i..]) == Subpaths(folders[i].0, folders[i].1) + FolderPaths(folders[i + 1..])
  {
    assert folders[i..][0] == folders[i];
    assert folders[i..][1..] == folders[i + 1..];
  }

  /** `for base, subdirs in folders.items(): for subdir in subdirs:
      os.makedirs(os.path.join(base, subdir), exist_ok=True)`. */
  method MakeFolders(h: Host, folders: seq<(Path, seq<Path>)>) returns (o: Outcome)
    modifies h
    ensures (h.Snap(), o) == MakeAllFn(old(h.Snap()), FolderPaths(folders))
  {
    ghost var st0 := h.Snap();
    var i := 0;
    while i < |folders|
      invariant 0 <= i <= |folders|
      invariant MakeAllFn(st0, FolderPaths(folders)) == MakeAllFn(h.Snap(), FolderPaths(folders[i..]))
    {
      ghost var before := h.Snap();
      var ps := Subpaths(folders[i].0, folders[i].1);
      FolderPathsFrom(folders, i);
      MakeAllAppend(before, ps, FolderPaths(folders[i + 1..]));
      o := MakeAll(h, ps);
      if o.Fail? {
        return;
      }
      i := i + 1;
    }
    assert folders[i..] == [];
    o := Pass;
  }

  // ---------------------------------------------------------------------
  // The React server

  /** Whether the packaged generator gets as far as the dependency step:
      both `os.makedirs` calls before it pass. */
  predicate ServerReachesDependencies(st: State, s: Server) {
    var (st1, o1) := MakeDirsFn(st, s.appName);
    o1.Pass? && MakeDirsFn(st1, Join(Resolve(st, s.appName), "server")).1.Pass?
  }

  /** The server part of the React flow: the project and server
      directories, the folder layout under the app directory, then the
      template loop run from the app directory. */
  function ServerFn(st: State, variant: Variant, s: Server, listing: seq<Entry>): (State, Outcome) {
    var (st1, o1) := MakeDirsFn(st, s.appName);
    if o1.Fail? then (st1, o1)
    else
      var appDir := Resolve(st, s.appName);
      var serverDir := Join(appDir, "server");
      var (st2, o2) := if variant.Current? then MakeDirsFn(st1, serverDir) else (st1, Pass);
      if o2.Fail? then (st2, o2)
      else
        var st3 := ChDirFn(if variant.Current? then ChDirFn(st2, serverDir) else st2, appDir);
        var (st4, o4) := MakeAllFn(st3, FolderPaths(ServerFolders));
        if o4.Fail? then (st4, o4)
        else ExecAllFn(st4, PlanAll(ServerPlan(variant, s), listing))
  }

  /** A server run that passes leaves the folder layout under the app
      directory and ends by writing exactly the loop's files, each
      resolved in the app directory. */
  lemma ServerWritesInApp(st: State, variant: Variant, s: Server, listing: seq<Entry>)
    requires StartsWith(st.cwd, "/") && ServerFn(st, variant, s, listing).1.Pass?
    ensures var r := ServerFn(st, variant, s, listing);
      var appDir := Resolve(st, s.appName);
      var w := WritesOf(appDir, PlanAll(ServerPlan(variant, s), listing));
      (forall p :: p in FolderPaths(ServerFolders) ==> Join(appDir, p) in r.0.dirs)
      && |w| <= |r.0.log| && r.0.log[|r.0.log| - |w|..] == w
  {
    var appDir := Resolve(st, s.appName);
    var (st1, o1) := MakeDirsFn(st, s.appName);
    var serverDir := Join(appDir, "server");
    var (st2, o2) := if variant.Current? then MakeDirsFn(st1, serverDir) else (st1, Pass);
    var pre := if variant.Current? then ChDirFn(st2, serverDir) else st2;
    var st3 := ChDirFn(pre, appDir);
    ChDirAbsolute(pre, appDir);
    var (st4, o4) := MakeAllFn(st3, FolderPaths(ServerFolders));
    MakeAllMembers(st3, FolderPaths(ServerFolders));
    var plan := PlanAll(ServerPlan(variant, s), listing);
    ExecAllWrites(st4, plan);
    var r := ExecAllFn(st4, plan);
    assert r == ServerFn(st, variant, s, listing);
    var w := WritesOf(appDir, plan);
    assert r.0.log == st4.log + w;
  }

  method ServerSetup(h: Host, deps: ServerDependencies, variant: Variant, s: Server, listing: seq<Entry>) returns (o: Outcome)
    modifies h, deps
    ensures (h.Snap(), o) == ServerFn(old(h.Snap()), variant, s, listing)
    ensures deps.items == old(deps.items)
      + (if variant.Current? && s.example && ServerReachesDependencies(old(h.Snap()), s) then [FakerDependency] else [])
  {
    var appDir := Join(h.cwd, s.appName);
    o := h.MakeDirs(s.appName);
    if o.Fail? {
      return;
    }
    var serverDir := Join(appDir, "server");
    if variant.Current? {
      o := h.MakeDirs(serverDir);
      if o.Fail? {
        return;
      }
      h.ChDir(serverDir);
      deps.AddExample(s.example);
    }
    h.ChDir(appDir);
    o := MakeFolders(h, ServerFolders);
    if o.Fail? {
      return;
    }
    o := RunListing(h, ServerPlan(variant, s), listing);
  }

  // ---------------------------------------------------------------------
  // The React client

  function ViteVariant(variant: Variant): Vite.Variant {
    if variant.Current? then Vite.Current else Vite.Legacy
  }

  /** The client part of the React flow, from the Vite scaffold on. With
      Tailwind the packaged generator installs it in `client`, runs the
      client template loop there, optionally adds Shadcn UI, and returns
      to the app directory. The older generator calls the two-parameter
      `setup_tailwind_npm` with three arguments: TypeError before any
      client template is read. */
  function ReactClientFn(st: State, c: Codec, platform: string, variant: Variant, appDir: Path,
                         tailwind: bool, plugins: seq<string>, fonts: bool, shadcn: bool, listing: seq<Entry>): (State, Outcome)
  {
    var (st1, o1) := Vite.SetupViteNpmFn(st, c, platform, ViteVariant(variant), appDir, "react", true);
    if o1.Fail? then (st1, o1)
    else if !tailwind then (st1, Pass)
    else if variant.Legacy? then (st1, Fail(TypeError(SetupArity)))
    else
      var clientDir := Join(appDir, "client");
      var (st2, o2) := TailwindSrc.SetupTailwindNpmFn(st1, c, platform, clientDir, plugins, fonts);
      if o2.Fail? then (st2, o2)
      else
        var (st3, o3) := ExecAllFn(st2, PlanAll(ReactClientPlan(variant, plugins, fonts), listing));
        if o3.Fail? then (st3, o3)
        else
          var (st4, o4) := if shadcn then Shadcn.SetupShadcnUiFn(st3, c, platform, Shadcn.Current, clientDir) else (st3, Pass);
          if o4.Fail? then (st4, o4) else (ChDirFn(st4, appDir), Pass)
  }

  /** Without Tailwind no client template is read: the flow is the Vite
      setup alone. With Tailwind the older generator stops with
      TypeError right after it. */
  lemma ReactClientGated(st: State, c: Codec, platform: string, variant: Variant, appDir: Path,
                         tailwind: bool, plugins: seq<string>, fonts: bool, shadcn: bool, listing: seq<Entry>)
    ensures var vite := Vite.SetupViteNpmFn(st, c, platform, ViteVariant(variant), appDir, "react", true);
      var r := ReactClientFn(st, c, platform, variant, appDir, tailwind, plugins, fonts, shadcn, listing);
      (!tailwind ==> r == vite)
      && (tailwind && variant.Legacy? ==> r == if vite.1.Fail? then vite else (vite.0, Fail(TypeError(SetupArity))))
  {
  }

  method ReactClient(h: Host, c: Codec, platform: string, variant: Variant, appDir: Path,
                     tailwind: bool, plugins: seq<string>, fonts: bool, shadcn: bool, listing: seq<Entry>) returns (o: Outcome)
    modifies h
    ensures (h.Snap(), o) == ReactClientFn(old(h.Snap()), c, platform, variant, appDir, tailwind, plugins, fonts, shadcn, listing)
  {
    o := Vite.SetupViteNpm(h, c, platform, ViteVariant(variant), appDir, "react", true);
    if o.Fail? || !tailwind {
      return;
    }
    if variant.Legacy? {
      return Fail(TypeError(SetupArity));
    }
    var clientDir := Join(appDir, "client");
    o := TailwindSrc.SetupTailwindNpm(h, c, platform, clientDir, plugins, fonts);
    if o.Fail? {
      return;
    }
    o := RunListing(h, ReactClientPlan(variant, plugins, fonts), listing);
    if o.Fail? {
      return;
    }
    if shadcn {
      o := Shadcn.SetupShadcnUi(h, c, platform, Shadcn.Current, clientDir);
      if o.Fail? {
        return;
      }
    }
    h.ChDir(appDir);
    o := Pass;
  }

  // ---------------------------------------------------------------------
  // The React branch of `main`

  /** The React branch: the server part, then, from the app directory it
      made, the client part. A server part that fails ends the branch. */
  function ReactFn(st: State, c: Codec, platform: string, variant: Variant, s: Server, serverListing: seq<Entry>,
                   tailwind: bool, plugins: seq<string>, fonts: bool, shadcn: bool, clientListing: seq<Entry>): (r: (State, Outcome))
    ensures ServerFn(st, variant, s, serverListing).1.Fail? ==> r == ServerFn(st, variant, s, serverListing)
  {
    var (st1, o1) := ServerFn(st, variant, s, serverListing);
    if o1.Fail? then (st1, o1)
    else ReactClientFn(st1, c, platform, variant, Resolve(st, s.appName), tailwind, plugins, fonts, shadcn, clientListing)
  }

  /** A server part that passes ends in the app directory it made. */
  lemma ServerEndsInApp(st: State, variant: Variant, s: Server, listing: seq<Entry>)
    requires StartsWith(st.cwd, "/") && ServerFn(st, variant, s, listing).1.Pass?
    ensures var st1 := ServerFn(st, variant, s, listing).0;
      Resolve(st, s.appName) in st1.dirs && st1.cwd == Resolve(st, s.appName)
  {
    var appDir := Resolve(st, s.appName);
    var (st1, o1) := MakeDirsFn(st, s.appName);
    assert appDir in Ancestors(appDir);
    var serverDir := Join(appDir, "server");
    var (st2, o2) := if variant.Current? then MakeDirsFn(st1, serverDir) else (st1, Pass);
    var pre := if variant.Current? then ChDirFn(st2, serverDir) else st2;
    ChDirAbsolute(pre, appDir);
  }

  /** Once the server part passes, the client part runs in the app
      directory: it exists and it is the working directory. */
  lemma ReactClientInApp(st: State, c: Codec, platform: string, variant: Variant, s: Server, serverListing: seq<Entry>,
                         tailwind: bool, plugins: seq<string>, fonts: bool, shadcn: bool, clientListing: seq<Entry>)
    requires StartsWith(st.cwd, "/") && ServerFn(st, variant, s, serverListing).1.Pass?
    ensures var st1 := ServerFn(st, variant, s, serverListing).0;
      st1.cwd in st1.dirs
      && ReactFn(st, c, platform, variant, s, serverListing, tailwind, plugins, fonts, shadcn, clientListing)
         == ReactClientFn(st1, c, platform, variant, st1.cwd, tailwind, plugins, fonts, shadcn, clientListing)
  {
    ServerEndsInApp(st, variant, s, serverListing);
  }

  method React(h: Host, deps: ServerDependencies, c: Codec, platform: string, variant: Variant, s: Server,
               serverListing: seq<Entry>, tailwind: bool, plugins: seq<string>, fonts: bool, shadcn: bool,
               clientListing: seq<Entry>) returns (o: Outcome)
    modifies h, deps
    ensures (h.Snap(), o) == ReactFn(old(h.Snap()), c, platform, variant, s, serverListing, tailwind, plugins, fonts, shadcn, clientListing)
    ensures deps.items == old(deps.items)
      + (if variant.Current? && s.example && ServerReachesDependencies(old(h.Snap()), s) then [FakerDependency] else [])
  {
    var appDir := Join(h.cwd, s.appName);
    o := ServerSetup(h, deps, variant, s, serverListing);
    if o.Fail? {
      return;
    }
    o := ReactClient(h, c, platform, variant, appDir, tailwind, plugins, fonts, shadcn, clientListing);
  }

  // ---------------------------------------------------------------------
  // The vanilla flow

  /** The Tailwind step: the npm setup (three arguments, which only the
      current helper takes) or the standalone CLI. */
  function VanillaTailwindFn(st: State, c: Codec, platform: string, variant: Variant, appDir: Path,
                             t: Tailwind, plugins: seq<string>, fonts: bool): (State, Outcome)
  {
    match t
    case NoTailwind => (st, Pass)
    case Npm =>
      if variant.Current? then TailwindSrc.SetupTailwindNpmFn(st, c, platform, appDir, plugins, fonts)
      else (st, Fail(TypeError(SetupArity)))
    case Standalone => (TailwindLegacy.SetupTailwindStandaloneFn(st, platform, appDir), Pass)
  }

  /** The Electron step: the current helper installs and updates
      package.json; the older generator calls its two helpers in turn. */
  function ElectronFn(st: State, c: Codec, platform: string, variant: Variant, appDir: Path, appName: string): (State, Outcome) {
    if variant.Current? then Electron.SetupElectronNpmFn(st, c, platform, appDir, appName)
    else
      var (st1, o1) := Electron.LegacySetupElectronNpmFn(st, c, platform, appDir);
      if o1.Fail? then (st1, o1) else Electron.LegacyUpdatePackageJsonForElectronFn(st1, c, appDir, appName)
  }

  /** The tools of the vanilla flow, run in the project directory: the
      package.json probe for Tailwind (its answer only picks a message,
      but a package.json that cannot be read raises), the Tailwind step,
      then Electron when chosen. */
  function VanillaToolsFn(st: State, c: Codec, platform: string, variant: Variant, appDir: Path, v: Vanilla): (State, Outcome) {
    var probe := if v.tailwind == Npm then NpmUtils.CheckPackageFn(st, c, "tailwindcss") else Ok(true);
    if probe.Err? then (st, Fail(probe.error))
    else
      var (st1, o1) := VanillaTailwindFn(st, c, platform, variant, appDir, v.tailwind, v.plugins, v.fonts);
      if o1.Fail? || !v.electron then (st1, o1)
      else ElectronFn(st1, c, platform, variant, appDir, v.server.appName)
  }

  /** The vanilla flow: the project directory, the folder layout, the
      tools, then the template loop. */
  function VanillaFn(st: State, c: Codec, platform: string, variant: Variant, v: Vanilla, listing: seq<Entry>): (State, Outcome) {
    var (st1, o1) := MakeDirsFn(st, v.server.appName);
    if o1.Fail? then (st1, o1)
    else
      var appDir := Resolve(st, v.server.appName);
      VanillaInAppFn(ChDirFn(st1, appDir), c, platform, variant, appDir, v, listing)
  }

  /** The vanilla flow inside the project directory. */
  function VanillaInAppFn(st: State, c: Codec, platform: string, variant: Variant, appDir: Path, v: Vanilla, listing: seq<Entry>): (State, Outcome) {
    var (st3, o3) := MakeAllFn(st, FolderPaths(VanillaFolders));
    if o3.Fail? then (st3, o3)
    else
      var (st5, o5) := VanillaToolsFn(st3, c, platform, variant, appDir, v);
      if o5.Fail? then (st5, o5)
      else ExecAllFn(st5, PlanAll(VanillaPlan(variant, v), listing))
  }

  /** In the older generator the npm Tailwind option raises TypeError
      right after package.json has been probed for Tailwind: nothing is
      changed, Electron is never reached, and the flow stops there. */
  lemma LegacyNpmTailwindRaises(st: State, c: Codec, platform: string, appDir: Path, v: Vanilla)
    requires v.tailwind == Npm
    ensures var probe := NpmUtils.CheckPackageFn(st, c, "tailwindcss");
      VanillaToolsFn(st, c, platform, Legacy, appDir, v)
        == (st, Fail(if probe.Err? then probe.error else TypeError(SetupArity)))
  {
  }

  /** Started in the app directory, each tool step ends there too (each
      helper changes into that absolute directory) and never removes a
      directory. */
  lemma VanillaTailwindStays(st: State, c: Codec, platform: string, variant: Variant, appDir: Path,
                             t: Tailwind, plugins: seq<string>, fonts: bool)
    requires StartsWith(appDir, "/") && st.cwd == appDir
    ensures var r := VanillaTailwindFn(st, c, platform, variant, appDir, t, plugins, fonts);
      r.0.cwd == appDir && r.0.dirs >= st.dirs
  {
    ChDirAbsolute(st, appDir);
  }

  lemma ElectronStays(st: State, c: Codec, platform: string, variant: Variant, appDir: Path, appName: string)
    requires StartsWith(appDir, "/") && st.cwd == appDir
    ensures var r := ElectronFn(st, c, platform, variant, appDir, appName);
      r.0.cwd == appDir && r.0.dirs >= st.dirs
  {
    ChDirAbsolute(st, appDir);
    if variant.Legacy? {
      var (st1, o1) := Electron.LegacySetupElectronNpmFn(st, c, platform, appDir);
      ChDirAbsolute(st1, appDir);
    }
  }

  lemma VanillaToolsStayInApp(st: State, c: Codec, platform: string, variant: Variant, appDir: Path, v: Vanilla)
    requires StartsWith(appDir, "/") && st.cwd == appDir
    ensures var r := VanillaToolsFn(st, c, platform, variant, appDir, v);
      r.0.cwd == appDir && r.0.dirs >= st.dirs
  {
    VanillaTailwindStays(st, c, platform, variant, appDir, v.tailwind, v.plugins, v.fonts);
    var (st1, o1) := VanillaTailwindFn(st, c, platform, variant, appDir, v.tailwind, v.plugins, v.fonts);
    if o1.Pass? && v.electron {
      ElectronStays(st1, c, platform, variant, appDir, v.server.appName);
    }
  }

  /** Every folder is a directory under `appDir`, and the log ends with
      the writes `w`. */
  predicate LaidOutAndWritten(st: State, appDir: Path, folders: seq<Path>, w: seq<Event>) {
    (forall p :: p in folders ==> Join(appDir, p) in st.dirs) && |w| <= |st.log| && st.log[|st.log| - |w|..] == w
  }

  /** A template loop that passes, run from `appDir` with the folders
      already there, keeps them and ends the log with its writes. */
  lemma LoopInApp(st: State, appDir: Path, folders: seq<Path>, plan: seq<Action>)
    requires st.cwd == appDir && ExecAllFn(st, plan).1.Pass?
    requires forall p :: p in folders ==> Join(appDir, p) in st.dirs
    ensures LaidOutAndWritten(ExecAllFn(st, plan).0, appDir, folders, WritesOf(appDir, plan))
  {
    var r := ExecAllFn(st, plan).0;
    assert r.dirs >= st.dirs;
    forall p | p in folders
      ensures Join(appDir, p) in r.dirs
    {
      assert Join(appDir, p) in st.dirs;
    }
    var w := WritesOf(appDir, plan);
    ExecAllWrites(st, plan);
    assert r.log == st.log + w;
    assert r.log[|r.log| - |w|..] == w;
    assert |w| <= |r.log|;
    assert LaidOutAndWritten(r, appDir, folders, w);
  }

  /** Inside the app directory, a run that passes leaves the folder layout
      under it and ends by writing exactly the loop's files, resolved there. */
  lemma VanillaInAppWrites(st: State, c: Codec, platform: string, variant: Variant, appDir: Path, v: Vanilla, listing: seq<Entry>)
    requires StartsWith(appDir, "/") && st.cwd == appDir
    requires VanillaInAppFn(st, c, platform, variant, appDir, v, listing).1.Pass?
    ensures LaidOutAndWritten(VanillaInAppFn(st, c, platform, variant, appDir, v, listing).0, appDir,
                              FolderPaths(VanillaFolders), WritesOf(appDir, PlanAll(VanillaPlan(variant, v), listing)))
  {
    var folders := FolderPaths(VanillaFolders);
    var (st3, o3) := MakeAllFn(st, folders);
    MakeAllMembers(st, folders);
    var (st5, o5) := VanillaToolsFn(st3, c, platform, variant, appDir, v);
    VanillaToolsStayInApp(st3, c, platform, variant, appDir, v);
    var plan := PlanAll(VanillaPlan(variant, v), listing);
    assert VanillaInAppFn(st, c, platform, variant, appDir, v, listing) == ExecAllFn(st5, plan);
    LoopInApp(st5, appDir, folders, plan);
  }

  /** A vanilla run that passes leaves the folder layout under the app
      directory and ends by writing exactly the loop's files, each
      resolved in the app directory. */
  lemma VanillaWritesInApp(st: State, c: Codec, platform: string, variant: Variant, v: Vanilla, listing: seq<Entry>)
    requires StartsWith(st.cwd, "/") && VanillaFn(st, c, platform, variant, v, listing).1.Pass?
    ensures LaidOutAndWritten(VanillaFn(st, c, platform, variant, v, listing).0, Resolve(st, v.server.appName),
                              FolderPaths(VanillaFolders), WritesOf(Resolve(st, v.server.appName), PlanAll(VanillaPlan(variant, v), listing)))
  {
    var appDir := Resolve(st, v.server.appName);
    var (st1, o1) := MakeDirsFn(st, v.server.appName);
    var st2 := ChDirFn(st1, appDir);
    ChDirAbsolute(st1, appDir);
    VanillaInAppWrites(st2, c, platform, variant, appDir, v, listing);
  }

  method VanillaSetup(h: Host, deps: ServerDependencies, c: Codec, platform: string, variant: Variant, v: Vanilla, listing: seq<Entry>)
    returns (o: Outcome)
    modifies h, deps
    ensures (h.Snap(), o) == VanillaFn(old(h.Snap()), c, platform, variant, v, listing)
    ensures deps.items == old(deps.items)
      + (if variant.Current? && v.server.example && MakeDirsFn(old(h.Snap()), v.server.appName).1.Pass? then [FakerDependency] else [])
  {
    var appDir := Join(h.cwd, v.server.appName);
    o := h.MakeDirs(v.server.appName);
    if o.Fail? {
      return;
    }
    h.ChDir(appDir);
    if variant.Current? {
      deps.AddExample(v.server.example);
    }
    o := VanillaInApp(h, c, platform, variant, appDir, v, listing);
  }

  method VanillaInApp(h: Host, c: Codec, platform: string, variant: Variant, appDir: Path, v: Vanilla, listing: seq<Entry>)
    returns (o: Outcome)
    modifies h
    ensures (h.Snap(), o) == VanillaInAppFn(old(h.Snap()), c, platform, variant, appDir, v, listing)
  {
    o := MakeFolders(h, VanillaFolders);
    if o.Fail? {
      return;
    }
    o := VanillaTools(h, c, platform, variant, appDir, v);
    if o.Fail? {
      return;
    }
    o := RunListing(h, VanillaPlan(variant, v), listing);
  }

  method VanillaTools(h: Host, c: Codec, platform: string, variant: Variant, appDir: Path, v: Vanilla) returns (o: Outcome)
    modifies h
    ensures (h.Snap(), o) == VanillaToolsFn(old(h.Snap()), c, platform, variant, appDir, v)
  {
    if v.tailwind == Npm {
      var probe := NpmUtils.CheckNpmPackage(h, c, "tailwindcss");
      if probe.Err? {
        return Fail(probe.error);
      }
    }
    o := VanillaTailwind(h, c, platform, variant, appDir, v.tailwind, v.plugins, v.fonts);
    if o.Fail? || !v.electron {
      return;
    }
    o := ElectronStep(h, c, platform, variant, appDir, v.server.appName);
  }

  method VanillaTailwind(h: Host, c: Codec, platform: string, variant: Variant, appDir: Path,
                         t: Tailwind, plugins: seq<string>, fonts: bool) returns (o: Outcome)
    modifies h
    ensures (h.Snap(), o) == VanillaTailwindFn(old(h.Snap()), c, platform, variant, appDir, t, plugins, fonts)
  {
    match t {
      case NoTailwind =>
        o := Pass;
      case Npm =>
        if variant.Current? {
          o := TailwindSrc.SetupTailwindNpm(h, c, platform, appDir, plugins, fonts);
        } else {
          o := Fail(TypeError(SetupArity));
        }
      case Standalone =>
        TailwindLegacy.SetupTailwindStandalone(h, platform, appDir);
        o := Pass;
    }
  }

  method ElectronStep(h: Host, c: Codec, platform: string, variant: Variant, appDir: Path, appName: string) returns (o: Outcome)
    modifies h
    ensures (h.Snap(), o) == ElectronFn(old(h.Snap()), c, platform, variant, appDir, appName)
  {
    if variant.Current? {
      o := Electron.SetupElectronNpm(h, c, platform, appDir, appName);
    } else {
      o := Electron.LegacySetupElectronNpm(h, c, platform, appDir);
      if o.Pass? {
        o := Electron.LegacyUpdatePackageJsonForElectron(h, c, appDir, appName);
      }
    }
  }
}
