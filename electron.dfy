/** Electron for the vanilla desktop app, in its three versions: the
    current helper (src/hyperpytext/utils/npm_electron_utils.py) merges the
    entry point and two scripts into package.json through the shared
    merge; the two older ones (hyperpytext/utils and utils) assign them in
    place and do not call the update from their setup. */
module Electron {
  import opened Base
  import opened Json
  import opened Fs
  import opened Text
  import NpmUtils

  /** The packaging script, with the app name as the packager's app
      argument. */
  function PackagerCommand(appName: string): (cmd: string)
    ensures StartsWith(cmd, "electron-packager . ")
    ensures Occurs(cmd, appName)
    ensures EndsWith(cmd, " --platform=win32,darwin,linux --arch=x64 --out=dist")
  {
    var head, tail := "electron-packager . ", " --platform=win32,darwin,linux --arch=x64 --out=dist";
    OccursInMiddle(head, appName, tail);
    assert (head + appName + tail)[..|head|] == head;
    head + appName + tail
  }

  function ElectronScripts(appName: string): (s: map<string, Value>)
    ensures "start" in s && "package" in s
  {
    map["start" := Str("electron ."), "package" := Str(PackagerCommand(appName))]
  }

  /** The updates of the current helper: a top-level `main` and two
      scripts. */
  function ElectronUpdates(appName: string): map<string, Value> {
    map["main" := Str("main.js"), "scripts" := Obj(ElectronScripts(appName))]
  }

  /** The merged package: `main` is main.js, the two scripts are set, the
      other scripts and the other top-level keys are kept. */
  lemma ElectronUpdatesMerged(m: map<string, Value>, appName: string)
    requires NpmUtils.WellFormedSection(m, "scripts")
    ensures var r := NpmUtils.MergeObj(m, ElectronUpdates(appName));
      r.Ok?
      && r.value.Keys == m.Keys + {"main", "scripts"}
      && r.value["main"] == Str("main.js")
      && r.value["scripts"].Obj?
      && r.value["scripts"].fields["start"] == Str("electron .")
      && r.value["scripts"].fields["package"] == Str(PackagerCommand(appName))
      && (forall k :: k in NpmUtils.Scripts(m) && k !in {"start", "package"} ==> r.value["scripts"].fields[k] == NpmUtils.Scripts(m)[k])
      && (forall k :: k in m && k !in {"main", "scripts"} ==> r.value[k] == m[k])
  {
    var upd := ElectronUpdates(appName);
    forall k | k in upd ensures !NpmUtils.Clash(m, k, upd[k]) {
      assert k == "main" || k == "scripts";
    }
    var r := NpmUtils.MergeObj(m, upd).value;
    if "scripts" in m {
      forall j | j in NpmUtils.Scripts(m) && j !in {"start", "package"}
        ensures r["scripts"].fields[j] == NpmUtils.Scripts(m)[j]
      {
        NpmUtils.MergeNested(m, upd, "scripts", j);
      }
      NpmUtils.MergeNested(m, upd, "scripts", "start");
      NpmUtils.MergeNested(m, upd, "scripts", "package");
    }
  }

  /** Current `update_package_json_for_electron(project_dir, app_name)`. */
  function UpdatePackageJsonForElectronFn(st: State, c: Codec, projectDir: Path, appName: string): (State, Outcome) {
    NpmUtils.UpdatePackageJsonFn(st, c, projectDir, ElectronUpdates(appName), None)
  }

  /** Older `update_package_json_for_electron(project_dir, app_name)`, both
      copies: `main` and the two scripts are assigned in place on the
      package.json of the project directory, opened without an existence
      check. */
  function InPlaceElectronEdit(v: Value, appName: string): (r: Result<Value>) {
    var main := map["main" := Str("main.js")];
    assert "main" in main;
    match SetItems(v, main)
    case Err(e) => Err(e)
    case Ok(v1) => SetNestedItems(v1, "scripts", ElectronScripts(appName))
  }

  /** The in-place edit succeeds exactly on a dict whose `scripts` is a
      dict, raises KeyError without `scripts`, and then sets the same
      three values as the merge, keeping everything else. */
  lemma InPlaceElectronEditMeaning(v: Value, appName: string)
    ensures InPlaceElectronEdit(v, appName).Ok? <==> v.Obj? && "scripts" in v.fields && v.fields["scripts"].Obj?
    ensures v.Obj? && "scripts" !in v.fields ==> InPlaceElectronEdit(v, appName) == Err(KeyError("scripts"))
    ensures v.Obj? && "scripts" in v.fields && v.fields["scripts"].Obj? ==>
      InPlaceElectronEdit(v, appName) == NpmUtils.MergeValue(v, ElectronUpdates(appName))
  {
    if v.Obj? && "scripts" in v.fields && v.fields["scripts"].Obj? {
      InPlaceElectronEditAgrees(v, appName);
    }
  }

  lemma InPlaceElectronEditAgrees(v: Value, appName: string)
    requires v.Obj? && "scripts" in v.fields && v.fields["scripts"].Obj?
    ensures InPlaceElectronEdit(v, appName) == NpmUtils.MergeValue(v, ElectronUpdates(appName))
  {
    var m := v.fields;
    var es := ElectronScripts(appName);
    var inner := m["scripts"].fields + es;
    var l := (m + map["main" := Str("main.js")])["scripts" := Obj(inner)];
    assert InPlaceElectronEdit(v, appName) == Ok(Obj(l));
    ElectronUpdatesMerged(m, appName);
    var r := NpmUtils.MergeObj(m, ElectronUpdates(appName)).value;
    assert l.Keys == r.Keys;
    var ri := r["scripts"].fields;
    assert inner.Keys == ri.Keys;
    forall j | j in inner ensures inner[j] == ri[j] {
      if j !in es {
        assert j in NpmUtils.Scripts(m);
      }
    }
    assert inner == ri;
    forall k | k in l ensures l[k] == r[k] {
      if k != "main" && k != "scripts" {
        assert k in m;
      }
    }
    assert l == r;
  }

  function LegacyUpdatePackageJsonForElectronFn(st: State, c: Codec, projectDir: Path, appName: string): (r: (State, Outcome))
    ensures r.1.Fail? ==> r.0 == ChDirFn(st, projectDir)
  {
    var st1 := ChDirFn(st, projectDir);
    match ReadJsonFn(st1, c, "package.json")
    case Err(e) => (st1, Fail(e))
    case Ok(v) =>
      match InPlaceElectronEdit(v, appName)
      case Err(e) => (st1, Fail(e))
      case Ok(v2) => WriteJsonFn(st1, c, "package.json", v2)
  }

  /** After the chdir, a package.json whose `scripts` is a dict is written
      back once, as the shared merge of `main` and the two scripts into it;
      nothing else changes. */
  lemma LegacyElectronWritesPackageJson(st: State, c: Codec, projectDir: Path, appName: string, m: map<string, Value>)
    requires Valid(st) && ReadJsonFn(ChDirFn(st, projectDir), c, "package.json") == Ok(Obj(m))
    requires "scripts" in m && m["scripts"].Obj?
    ensures NpmUtils.MergeValue(Obj(m), ElectronUpdates(appName)).Ok?
    ensures var st1 := ChDirFn(st, projectDir);
      var a := Resolve(st1, "package.json");
      var r := LegacyUpdatePackageJsonForElectronFn(st, c, projectDir, appName);
      r.1 == Pass && r.0.files == st.files[a := c.dump(NpmUtils.MergeValue(Obj(m), ElectronUpdates(appName)).value)]
      && r.0.log == st.log + [Wrote(a)] && r.0.cwd == st1.cwd && r.0.dirs == st.dirs
  {
    InPlaceElectronEditAgrees(Obj(m), appName);
  }

  method LegacyUpdatePackageJsonForElectron(h: Host, c: Codec, projectDir: Path, appName: string) returns (o: Outcome)
    modifies h
    ensures (h.Snap(), o) == LegacyUpdatePackageJsonForElectronFn(old(h.Snap()), c, projectDir, appName)
  {
    h.ChDir(projectDir);
    var v := h.ReadJson(c, "package.json");
    if v.Err? {
      return Fail(v.error);
    }
    var edited := InPlaceElectronEdit(v.value, appName);
    if edited.Err? {
      return Fail(edited.error);
    }
    o := h.WriteJson(c, "package.json", edited.value);
  }

  // ---------------------------------------------------------------------
  // setup_electron_npm

  function InstallCommands(platform: string): seq<seq<string>> {
    [[NpmUtils.Npm(platform), "init", "-y"], [NpmUtils.Npm(platform), "install", "--save-dev", "electron@latest"]]
  }

  /** The older `setup_electron_npm(project_dir)`, both copies: the install
      runs only when electron is not a dependency (`check_npm_package` in
      one, `check_electron_npm` in the other, the same test). */
  function LegacySetupElectronNpmFn(st: State, c: Codec, platform: string, projectDir: Path): (State, Outcome) {
    var st1 := ChDirFn(st, projectDir);
    match NpmUtils.CheckPackageFn(st1, c, "electron")
    case Err(e) => (st1, Fail(e))
    case Ok(listed) => (RunAllFn(st1, if listed then [] else InstallCommands(platform)), Pass)
  }

  /** The current `setup_electron_npm(project_dir, app_name)`: the same
      install gate, then the package.json update in either case. */
  function SetupElectronNpmFn(st: State, c: Codec, platform: string, projectDir: Path, appName: string): (State, Outcome) {
    var st1 := ChDirFn(st, projectDir);
    match NpmUtils.CheckPackageFn(st1, c, "electron")
    case Err(e) => (st1, Fail(e))
    case Ok(listed) =>
      UpdatePackageJsonForElectronFn(RunAllFn(st1, if listed then [] else InstallCommands(platform)), c, projectDir, appName)
  }

  /** With a readable package.json in the project directory, the install
      commands are issued exactly when electron is listed in neither
      section, and the current helper updates package.json either way. */
  lemma SetupElectronInstallGate(st: State, c: Codec, platform: string, projectDir: Path, appName: string, m: map<string, Value>)
    requires ReadJsonFn(ChDirFn(st, projectDir), c, "package.json") == Ok(Obj(m))
    requires NpmUtils.WellFormedSection(m, "dependencies") && NpmUtils.WellFormedSection(m, "devDependencies")
    ensures var listed := "electron" in NpmUtils.SectionKeys(m, "dependencies") || "electron" in NpmUtils.SectionKeys(m, "devDependencies");
      var st1 := ChDirFn(st, projectDir);
      var installed := RunAllFn(st1, if listed then [] else InstallCommands(platform));
      LegacySetupElectronNpmFn(st, c, platform, projectDir) == (installed, Pass)
      && SetupElectronNpmFn(st, c, platform, projectDir, appName) == UpdatePackageJsonForElectronFn(installed, c, projectDir, appName)
      && (listed ==> installed == st1)
      && (!listed ==> installed.log == st1.log + [Ran(InstallCommands(platform)[0]), Ran(InstallCommands(platform)[1])])
  {
    NpmUtils.CheckPackageMeaning(ChDirFn(st, projectDir), c, "electron", m);
  }

  method LegacySetupElectronNpm(h: Host, c: Codec, platform: string, projectDir: Path) returns (o: Outcome)
    modifies h
    ensures (h.Snap(), o) == LegacySetupElectronNpmFn(old(h.Snap()), c, platform, projectDir)
  {
    h.ChDir(projectDir);
    var listed := NpmUtils.CheckNpmPackage(h, c, "electron");
    if listed.Err? {
      return Fail(listed.error);
    }
    h.RunCommands(if listed.value then [] else InstallCommands(platform));
    o := Pass;
  }

  method SetupElectronNpm(h: Host, c: Codec, platform: string, projectDir: Path, appName: string) returns (o: Outcome)
    modifies h
    ensures (h.Snap(), o) == SetupElectronNpmFn(old(h.Snap()), c, platform, projectDir, appName)
  {
    h.ChDir(projectDir);
    var listed := NpmUtils.CheckNpmPackage(h, c, "electron");
    if listed.Err? {
      return Fail(listed.error);
    }
    h.RunCommands(if listed.value then [] else InstallCommands(platform));
    o := NpmUtils.UpdatePackageJson(h, c, projectDir, ElectronUpdates(appName), None);
  }
}
