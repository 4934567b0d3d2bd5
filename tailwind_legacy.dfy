/** The older Tailwind helpers used by the vanilla generator: the npm
    install plan without scripts, the standalone CLI download, the merge of
    a JSON fragment into `scripts`, and the plugins-only config rewrite. */
module TailwindLegacy {
  import opened Base
  import opened Json
  import opened Fs
  import opened Text
  import NpmUtils
  import TailwindSrc

  // ---------------------------------------------------------------------
  // npm install plan

  function LegacyBaseInstall(npm: string): seq<seq<string>> {
    [[npm, "init", "-y"], [npm, "install", "-D", "tailwindcss@latest", "autoprefixer@latest"]]
  }

  /** The commands of `setup_tailwind_npm(project_dir, plugins)` once the
      dependency check has answered: init and install only when Tailwind
      is missing, then the config init, then one install per plugin. */
  function LegacyNpmCommands(platform: string, installed: bool, plugins: seq<string>): (cmds: seq<seq<string>>)
    ensures var base := if installed then 0 else 2;
      |cmds| == base + 1 + |plugins|
      && (!installed ==> cmds[..2] == LegacyBaseInstall(NpmUtils.Npm(platform)))
      && cmds[base] == [NpmUtils.Npx(platform), "tailwindcss", "init", "-p"]
      && (forall i :: 0 <= i < |plugins| ==> cmds[base + 1 + i] == [NpmUtils.Npm(platform), "install", "-D", "@tailwindcss/" + plugins[i]])
  {
    var npm := NpmUtils.Npm(platform);
    (if installed then [] else LegacyBaseInstall(npm))
    + [[NpmUtils.Npx(platform), "tailwindcss", "init", "-p"]]
    + TailwindSrc.PluginInstalls(npm, plugins)
  }

  /** `setup_tailwind_npm(project_dir, plugins)`: `check_tailwind_npm` is
      `check_npm_package` for "tailwindcss" in the project directory. */
  function SetupTailwindNpmFn(st: State, c: Codec, platform: string, projectDir: Path, plugins: seq<string>): (State, Outcome) {
    var st1 := ChDirFn(st, projectDir);
    match NpmUtils.CheckPackageFn(st1, c, "tailwindcss")
    case Err(e) => (st1, Fail(e))
    case Ok(installed) => (RunAllFn(st1, LegacyNpmCommands(platform, installed, plugins)), Pass)
  }

  /** With Tailwind already listed no init or install runs; otherwise both
      run first. The plugins follow the config init in every case. */
  lemma SetupTailwindNpmInstallGate(st: State, c: Codec, platform: string, projectDir: Path, plugins: seq<string>, m: map<string, Value>)
    requires ReadJsonFn(ChDirFn(st, projectDir), c, "package.json") == Ok(Obj(m))
    requires NpmUtils.WellFormedSection(m, "dependencies") && NpmUtils.WellFormedSection(m, "devDependencies")
    ensures var listed := "tailwindcss" in NpmUtils.SectionKeys(m, "dependencies") || "tailwindcss" in NpmUtils.SectionKeys(m, "devDependencies");
      var st1 := ChDirFn(st, projectDir);
      SetupTailwindNpmFn(st, c, platform, projectDir, plugins)
        == (st1.(log := st1.log + Runs(LegacyNpmCommands(platform, listed, plugins))), Pass)
  {
    NpmUtils.CheckPackageMeaning(ChDirFn(st, projectDir), c, "tailwindcss", m);
  }

  method SetupTailwindNpm(h: Host, c: Codec, platform: string, projectDir: Path, plugins: seq<string>) returns (o: Outcome)
    modifies h
    ensures (h.Snap(), o) == SetupTailwindNpmFn(old(h.Snap()), c, platform, projectDir, plugins)
  {
    h.ChDir(projectDir);
    var npm := NpmUtils.Npm(platform);
    var installed := NpmUtils.CheckNpmPackage(h, c, "tailwindcss");
    if installed.Err? {
      return Fail(installed.error);
    }
    ghost var st1 := h.Snap();
    var prefix: seq<seq<string>> := if installed.value then [] else LegacyBaseInstall(npm);
    prefix := prefix + [[NpmUtils.Npx(platform), "tailwindcss", "init", "-p"]];
    h.RunCommands(prefix);
    TailwindSrc.InstallPlugins(h, npm, plugins);
    RunAllAppend(st1, prefix, TailwindSrc.PluginInstalls(npm, plugins));
    o := Pass;
  }

  // ---------------------------------------------------------------------
  // Standalone CLI

  /** The executable `check_tailwind_standalone` looks for. */
  function StandaloneExe(platform: string): (exe: string)
    ensures exe == "tailwindcss.exe" <==> StartsWith(platform, "win")
    ensures exe == "tailwindcss" <==> !StartsWith(platform, "win")
  {
    if StartsWith(platform, "win") then "tailwindcss.exe" else "tailwindcss"
  }

  const ReleaseBase: string := "https://github.com/tailwindlabs/tailwindcss/releases/latest/download/"

  /** The download for this platform: the URL and the name curl saves it
      under (empty on Windows, where nothing is renamed); no download on
      other platforms. */
  function StandaloneDownload(platform: string): (r: Option<(string, string)>)
    ensures r.None? <==> NpmUtils.CheckSystem(platform).None?
    ensures NpmUtils.CheckSystem(platform) == Some("windows") ==> r == Some((ReleaseBase + "tailwindcss-windows-x64.exe", ""))
    ensures NpmUtils.CheckSystem(platform) == Some("mac") ==> r == Some((ReleaseBase + "tailwindcss-macos-arm64", "tailwindcss-macos-arm64"))
    ensures NpmUtils.CheckSystem(platform) == Some("linux") ==> r == Some((ReleaseBase + "tailwindcss-linux-x64", "tailwindcss-linux-x64"))
    ensures r.Some? ==> r.value.0 == ReleaseBase + (if r.value.1 == "" then "tailwindcss-windows-x64.exe" else r.value.1)
  {
    if StartsWith(platform, "win") then Some((ReleaseBase + "tailwindcss-windows-x64.exe", ""))
    else if StartsWith(platform, "darwin") then Some((ReleaseBase + "tailwindcss-macos-arm64", "tailwindcss-macos-arm64"))
    else if StartsWith(platform, "linux") then Some((ReleaseBase + "tailwindcss-linux-x64", "tailwindcss-linux-x64"))
    else None
  }

  /** The commands of `setup_tailwind_standalone` once it knows whether the
      executable is present: none at all when it is missing on an
      unsupported platform; otherwise the download (curl, and off Windows
      chmod and mv to "tailwindcss") when it is missing, then the init. */
  function StandaloneCommands(platform: string, present: bool): (r: Option<seq<seq<string>>>)
    ensures r.None? <==> !present && StandaloneDownload(platform).None?
    ensures present ==> r == Some([["./tailwindcss", "init"]])
    ensures r.Some? && !present ==>
      var (url, out) := StandaloneDownload(platform).value;
      r.value == [["curl", "-sLO", url]]
           + (if StartsWith(platform, "win") then [] else [["chmod", "+x", out], ["mv", out, "tailwindcss"]])
           + [["./tailwindcss", "init"]]
  {
    if present then Some([["./tailwindcss", "init"]])
    else match StandaloneDownload(platform)
      case None => None
      case Some((url, out)) =>
        Some([["curl", "-sLO", url]]
             + (if StartsWith(platform, "win") then [] else [["chmod", "+x", out], ["mv", out, "tailwindcss"]])
             + [["./tailwindcss", "init"]])
  }

  /** `setup_tailwind_standalone(project_dir)`. */
  function SetupTailwindStandaloneFn(st: State, platform: string, projectDir: Path): State {
    var st1 := ChDirFn(st, projectDir);
    match StandaloneCommands(platform, Exists(st1, StandaloneExe(platform)))
    case None => st1
    case Some(cmds) => RunAllFn(st1, cmds)
  }

  /** On an unsupported platform without the executable nothing is run:
      neither the download nor the init. */
  lemma StandaloneUnsupported(st: State, platform: string, projectDir: Path)
    requires NpmUtils.CheckSystem(platform).None?
    requires !Exists(ChDirFn(st, projectDir), StandaloneExe(platform))
    ensures SetupTailwindStandaloneFn(st, platform, projectDir).log == st.log
  {
  }

  method SetupTailwindStandalone(h: Host, platform: string, projectDir: Path)
    modifies h
    ensures h.Snap() == SetupTailwindStandaloneFn(old(h.Snap()), platform, projectDir)
  {
    h.ChDir(projectDir);
    var exe := StandaloneExe(platform);
    var a := Join(h.cwd, exe);
    if !(a in h.files || a in h.dirs) {
      var url: string;
      var output := "";
      if StartsWith(platform, "win") {
        url := ReleaseBase + "tailwindcss-windows-x64.exe";
      } else if StartsWith(platform, "darwin") {
        url := ReleaseBase + "tailwindcss-macos-arm64";
        output := "tailwindcss-macos-arm64";
      } else if StartsWith(platform, "linux") {
        url := ReleaseBase + "tailwindcss-linux-x64";
        output := "tailwindcss-linux-x64";
      } else {
        return;
      }
      ghost var st1 := h.Snap();
      h.Run(["curl", "-sLO", url]);
      RunIsRunAll(st1, ["curl", "-sLO", url]);
      if !StartsWith(platform, "win") {
        ghost var st2 := h.Snap();
        h.RunCommands([["chmod", "+x", output], ["mv", output, "tailwindcss"]]);
        RunAllAppend(st1, [["curl", "-sLO", url]], [["chmod", "+x", output], ["mv", output, "tailwindcss"]]);
      }
      ghost var st3 := h.Snap();
      h.Run(["./tailwindcss", "init"]);
      RunIsRunAll(st3, ["./tailwindcss", "init"]);
      var dl := [["curl", "-sLO", url]] + (if StartsWith(platform, "win") then [] else [["chmod", "+x", output], ["mv", output, "tailwindcss"]]);
      RunAllAppend(st1, dl, [["./tailwindcss", "init"]]);
    } else {
      ghost var st1 := h.Snap();
      h.Run(["./tailwindcss", "init"]);
      RunIsRunAll(st1, ["./tailwindcss", "init"]);
    }
  }

  // ---------------------------------------------------------------------
  // Scripts fragment

  /** `package['scripts'].update(json.loads('{' + new_scripts + '}'))`:
      `package['scripts']` is looked up first (TypeError on a non-dict,
      KeyError when absent), then its `update` (AttributeError on a
      non-dict), then the fragment is parsed. */
  function MergeFragment(pkg: Value, parsed: Option<Value>): (r: Result<Value>)
    ensures r.Ok? <==> pkg.Obj? && "scripts" in pkg.fields && pkg.fields["scripts"].Obj? && parsed.Some? && parsed.value.Obj?
    ensures pkg.Obj? && "scripts" !in pkg.fields ==> r == Err(KeyError("scripts"))
    ensures r.Ok? ==>
      r.value.Obj? && r.value.fields.Keys == pkg.fields.Keys
      && (forall k :: k in pkg.fields && k != "scripts" ==> r.value.fields[k] == pkg.fields[k])
      && r.value.fields["scripts"] == Obj(pkg.fields["scripts"].fields + parsed.value.fields)
  {
    if !pkg.Obj? then Err(TypeError("package.json is not an object"))
    else if "scripts" !in pkg.fields then Err(KeyError("scripts"))
    else if !pkg.fields["scripts"].Obj? then Err(AttributeError("update"))
    else match parsed
      case None => Err(JsonDecodeError("<string>"))
      case Some(u) =>
        if !u.Obj? then Err(TypeError("dictionary update sequence"))
        else Ok(Obj(pkg.fields["scripts" := Obj(pkg.fields["scripts"].fields + u.fields)]))
  }

  /** The fragment's keys win inside `scripts`; every other script stays. */
  lemma MergeFragmentScripts(s: map<string, Value>, m: map<string, Value>, u: map<string, Value>, k: string)
    requires "scripts" in m && m["scripts"] == Obj(s)
    ensures var r := MergeFragment(Obj(m), Some(Obj(u))).value.fields["scripts"].fields;
      (k in u ==> r[k] == u[k])
      && (k in s && k !in u ==> r[k] == s[k])
      && (k in r <==> k in s || k in u)
  {
  }

  /** `update_package_json(project_dir, new_scripts)`: package.json in the
      project directory is opened without an existence check. */
  function UpdatePackageJsonFn(st: State, c: Codec, projectDir: Path, fragment: string): (r: (State, Outcome))
    ensures r.1.Fail? ==> r.0 == ChDirFn(st, projectDir)
  {
    var st1 := ChDirFn(st, projectDir);
    match ReadJsonFn(st1, c, "package.json")
    case Err(e) => (st1, Fail(e))
    case Ok(v) =>
      match MergeFragment(v, c.load("{" + fragment + "}"))
      case Err(e) => (st1, Fail(e))
      case Ok(v2) => WriteJsonFn(st1, c, "package.json", v2)
  }

  /** A package.json without `scripts` raises KeyError and is not written. */
  lemma UpdatePackageJsonNeedsScripts(st: State, c: Codec, projectDir: Path, fragment: string, m: map<string, Value>)
    requires ReadJsonFn(ChDirFn(st, projectDir), c, "package.json") == Ok(Obj(m))
    requires "scripts" !in m
    ensures UpdatePackageJsonFn(st, c, projectDir, fragment) == (ChDirFn(st, projectDir), Fail(KeyError("scripts")))
  {
  }

  method UpdatePackageJson(h: Host, c: Codec, projectDir: Path, fragment: string) returns (o: Outcome)
    modifies h
    ensures (h.Snap(), o) == UpdatePackageJsonFn(old(h.Snap()), c, projectDir, fragment)
  {
    h.ChDir(projectDir);
    var v := h.ReadJson(c, "package.json");
    if v.Err? {
      return Fail(v.error);
    }
    var package := v.value;
    if !package.Obj? {
      return Fail(TypeError("package.json is not an object"));
    }
    if "scripts" !in package.fields {
      return Fail(KeyError("scripts"));
    }
    var scripts := package.fields["scripts"];
    if !scripts.Obj? {
      return Fail(AttributeError("update"));
    }
    var parsed := c.load("{" + fragment + "}");
    if parsed.None? {
      return Fail(JsonDecodeError("<string>"));
    }
    if !parsed.value.Obj? {
      return Fail(TypeError("dictionary update sequence"));
    }
    scripts := Obj(scripts.fields + parsed.value.fields);
    package := Obj(package.fields["scripts" := scripts]);
    o := h.WriteJson(c, "package.json", package);
  }

  // ---------------------------------------------------------------------
  // tailwind.config.js

  /** `update_tailwind_config(filename, plugins)` is the newer rewrite
      without fonts: the first plugins marker, with none after it, becomes
      the in-order require block,
      a text without it is written back unchanged, and the fonts marker is
      never touched. */
  lemma UpdateTailwindConfigPluginsOnly(pre: string, rest: string, plugins: seq<string>, config: string)
    requires forall i :: 0 <= i < |pre| ==>
      !OccursAt(pre + TailwindSrc.PluginsMarker + rest, TailwindSrc.PluginsMarker, i)
    requires !Occurs(rest, TailwindSrc.PluginsMarker)
    ensures TailwindSrc.NewConfig(pre + TailwindSrc.PluginsMarker + rest, plugins, false)
         == pre + TailwindSrc.PluginsReplacement(plugins) + rest
    ensures !Occurs(config, TailwindSrc.PluginsMarker) ==> TailwindSrc.NewConfig(config, plugins, false) == config
    ensures Occurs(config, TailwindSrc.FontsMarker) ==> Occurs(TailwindSrc.NewConfig(config, plugins, false), TailwindSrc.FontsMarker)
  {
    TailwindSrc.PluginsMarkerRewritten(pre, rest, plugins);
    if !Occurs(config, TailwindSrc.PluginsMarker) {
      TailwindSrc.NewConfigWithoutMarkers(config, plugins, false);
    }
    if Occurs(config, TailwindSrc.FontsMarker) {
      TailwindSrc.FontsMarkerKeptWithoutFonts(config, plugins);
    }
  }
}
