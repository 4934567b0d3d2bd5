/** Vite for the React client, in the current helper and in the older one
    kept at the repository root: the scaffold command, the scripts added to
    client/package.json, and the proxy block spliced into the Vite config
    at its `defineConfig` anchor. */
module Vite {
  import opened Base
  import opened Json
  import opened Fs
  import opened Text
  import NpmUtils

  /** Current: src/hyperpytext/utils/npm_vite_utils.py; Legacy:
      utils/npm_vite_utils.py. */
  datatype Variant = Current | Legacy

  // ---------------------------------------------------------------------
  // Proxy block

  const Anchor: string := "export default defineConfig({"
  const ApiEntry: string := "'/api': 'http://localhost:8000',"

  const Sp12: string := "            "
  const Sp16: string := Sp12 + "    "
  const Sp20: string := Sp16 + "    "
  const Sp24: string := Sp20 + "    "

  /** The current replacement, a triple-quoted block that keeps the
      indentation of its source lines: a newline, the anchor again, the
      server.proxy block, and twelve spaces. */
  const CurrentProxy: string := ProxyHead + Anchor + ProxyMid + ApiEntry + ProxyTail
  const ProxyHead: string := "\n" + Sp12
  const ProxyMid: string := "\n" + Sp16 + "server: {" + "\n" + Sp20 + "proxy: {" + "\n" + Sp24
  const ProxyTail: string := "\n" + Sp20 + "}," + "\n" + Sp16 + "}," + "\n" + Sp12

  /** The older replacement: the anchor followed by the block. */
  const LegacyProxy: string := Anchor + LegacyMid + ApiEntry + LegacyTail
  const LegacyMid: string := "\n  server: {\n    proxy: {\n      "
  const LegacyTail: string := "\n    },\n  },"

  function ProxyText(variant: Variant): string {
    if variant == Current then CurrentProxy else LegacyProxy
  }

  function ConfigName(variant: Variant): string {
    if variant == Current then "vite.config.ts" else "vite.config.js"
  }

  /** The new config text `configure_vite_proxy` writes. */
  function ProxiedConfig(config: string, variant: Variant): string {
    ReplaceAll(config, Anchor, ProxyText(variant))
  }

  /** Each replacement holds the anchor itself and the /api entry. */
  lemma ProxyTextHolds(variant: Variant)
    ensures Occurs(ProxyText(variant), Anchor) && Occurs(ProxyText(variant), ApiEntry)
    ensures |ProxyText(variant)| > |Anchor|
  {
    OccursSelf(Anchor);
    OccursSelf(ApiEntry);
    if variant == Current {
      OccursExtended(ProxyHead, Anchor, Anchor);
      OccursExtended(ProxyHead + Anchor, ProxyMid, Anchor);
      OccursExtended(ProxyHead + Anchor + ProxyMid, ApiEntry, Anchor);
      OccursExtended(ProxyHead + Anchor + ProxyMid, ApiEntry, ApiEntry);
      OccursExtended(ProxyHead + Anchor + ProxyMid + ApiEntry, ProxyTail, Anchor);
      OccursExtended(ProxyHead + Anchor + ProxyMid + ApiEntry, ProxyTail, ApiEntry);
    } else {
      OccursExtended(Anchor, LegacyMid, Anchor);
      OccursExtended(Anchor + LegacyMid, ApiEntry, Anchor);
      OccursExtended(Anchor + LegacyMid, ApiEntry, ApiEntry);
      OccursExtended(Anchor + LegacyMid + ApiEntry, LegacyTail, Anchor);
      OccursExtended(Anchor + LegacyMid + ApiEntry, LegacyTail, ApiEntry);
    }
  }

  /** A config without the anchor is written back unchanged. */
  lemma ProxyNeedsAnchor(config: string, variant: Variant)
    requires !Occurs(config, Anchor)
    ensures ProxiedConfig(config, variant) == config
  {
    ReplaceAbsent(config, Anchor, ProxyText(variant));
  }

  /** A config with one anchor, and no '(' before it (as in the scaffold's
      import lines), gets exactly one block in its place; the /api entry
      is then in the text. */
  lemma ProxyOnce(x: string, y: string, variant: Variant)
    requires '(' !in x && !Occurs(y, Anchor)
    ensures ProxiedConfig(x + Anchor + y, variant) == x + ProxyText(variant) + y
    ensures Occurs(ProxiedConfig(x + Anchor + y, variant), ApiEntry)
  {
    assert Anchor[27] == '(';
    assert '(' !in Anchor[..27];
    ReplaceSingle(x, Anchor, y, ProxyText(variant), 27);
    ProxyTextHolds(variant);
    var i :| OccursAt(ProxyText(variant), ApiEntry, i);
    var r := x + ProxyText(variant) + y;
    assert r[|x| + i..|x| + i + |ApiEntry|] == ProxyText(variant)[i..i + |ApiEntry|];
    assert OccursAt(r, ApiEntry, |x| + i);
  }

  /** The replacement contains the anchor, so running the edit again adds
      a second block: it is not idempotent on any config it changes. */
  lemma ProxyNotIdempotent(config: string, variant: Variant)
    requires Occurs(config, Anchor)
    ensures ProxiedConfig(ProxiedConfig(config, variant), variant) != ProxiedConfig(config, variant)
  {
    ProxyTextHolds(variant);
    ReplaceNotIdempotent(config, Anchor, ProxyText(variant));
  }

  function ConfigPath(variant: Variant, projectDir: Path): Path {
    Join(Join(projectDir, "client"), ConfigName(variant))
  }

  /** `configure_vite_proxy(project_dir)`: a missing config is skipped. */
  function ConfigureViteProxyFn(st: State, variant: Variant, projectDir: Path): (r: (State, Outcome))
    ensures !Exists(st, ConfigPath(variant, projectDir)) ==> r == (st, Pass)
    ensures r.1.Fail? ==> r.0 == st
    ensures r.0.cwd == st.cwd && r.0.dirs == st.dirs
    ensures r.0.log == st.log || r.0.log == st.log + [Wrote(Resolve(st, ConfigPath(variant, projectDir)))]
  {
    var p := ConfigPath(variant, projectDir);
    if !Exists(st, p) then (st, Pass)
    else match ReadFn(st, p)
      case Err(e) => (st, Fail(e))
      case Ok(text) => WriteFn(st, p, ProxiedConfig(text, variant))
  }

  /** An existing config file is rewritten in place with the proxied
      text; nothing else on disk changes. */
  lemma ConfigureViteProxyWrites(st: State, variant: Variant, projectDir: Path)
    requires Valid(st) && IsFile(st, ConfigPath(variant, projectDir))
    ensures var a := Resolve(st, ConfigPath(variant, projectDir));
      var r := ConfigureViteProxyFn(st, variant, projectDir);
      r.1 == Pass && r.0.files == st.files[a := ProxiedConfig(st.files[a], variant)] && r.0.log == st.log + [Wrote(a)]
  {
  }

  method ConfigureViteProxy(h: Host, variant: Variant, projectDir: Path) returns (o: Outcome)
    modifies h
    ensures (h.Snap(), o) == ConfigureViteProxyFn(old(h.Snap()), variant, projectDir)
  {
    var p := ConfigPath(variant, projectDir);
    var a := Join(h.cwd, p);
    if !(a in h.files || a in h.dirs) {
      return Pass;
    }
    var text := h.Read(p);
    if text.Err? {
      return Fail(text.error);
    }
    o := h.Write(p, ProxiedConfig(text.value, variant));
  }

  // ---------------------------------------------------------------------
  // client/package.json scripts

  function ViteScripts(): (s: map<string, Value>)
    ensures "start" in s && "build" in s
  {
    map["start" := Str("vite"), "build" := Str("vite build")]
  }

  /** Current `update_package_json_for_vite(project_dir)`: the shared merge
      on client/package.json. */
  function UpdatePackageJsonForViteFn(st: State, c: Codec, projectDir: Path): (State, Outcome) {
    NpmUtils.UpdatePackageJsonFn(st, c, projectDir, map["scripts" := Obj(ViteScripts())], Some("client"))
  }

  /** start and build become the Vite commands; other scripts and other
      keys are kept. */
  lemma ViteScriptsMerged(m: map<string, Value>)
    requires NpmUtils.WellFormedSection(m, "scripts")
    ensures var r := NpmUtils.MergeObj(m, map["scripts" := Obj(ViteScripts())]);
      r.Ok?
      && r.value["scripts"].Obj?
      && r.value["scripts"].fields["start"] == Str("vite")
      && r.value["scripts"].fields["build"] == Str("vite build")
      && (forall k :: k in NpmUtils.Scripts(m) && k !in {"start", "build"} ==> r.value["scripts"].fields[k] == NpmUtils.Scripts(m)[k])
      && (forall k :: k in m && k != "scripts" ==> r.value[k] == m[k])
  {
    NpmUtils.MergeScripts(m, ViteScripts());
  }

  /** Older `update_package_json_for_vite(project_dir)`: the two scripts
      are assigned in place, so `scripts` must already be a dict. */
  function LegacyUpdatePackageJsonForViteFn(st: State, c: Codec, projectDir: Path): (r: (State, Outcome))
    ensures !Exists(st, Join(Join(projectDir, "client"), "package.json")) ==> r == (st, Pass)
    ensures r.1.Fail? ==> r.0 == st
  {
    var p := Join(Join(projectDir, "client"), "package.json");
    if !Exists(st, p) then (st, Pass)
    else match ReadJsonFn(st, c, p)
      case Err(e) => (st, Fail(e))
      case Ok(v) =>
        match SetNestedItems(v, "scripts", ViteScripts())
        case Err(e) => (st, Fail(e))
        case Ok(v2) => WriteJsonFn(st, c, p, v2)
  }

  /** Where `scripts` already is a dict, assigning in place and the shared
      merge give the same package; where it is missing, the merge adds it
      but the in-place edit raises KeyError. */
  lemma InPlaceMatchesMerge(m: map<string, Value>)
    ensures "scripts" in m && m["scripts"].Obj? ==>
      SetNestedItems(Obj(m), "scripts", ViteScripts()) == NpmUtils.MergeValue(Obj(m), map["scripts" := Obj(ViteScripts())])
    ensures "scripts" !in m ==>
      SetNestedItems(Obj(m), "scripts", ViteScripts()) == Err(KeyError("scripts"))
      && NpmUtils.MergeValue(Obj(m), map["scripts" := Obj(ViteScripts())]).Ok?
  {
    NpmUtils.MergeScripts(m, ViteScripts());
    if "scripts" in m && m["scripts"].Obj? {
      var l := SetNestedItems(Obj(m), "scripts", ViteScripts()).value.fields;
      var r := NpmUtils.MergeObj(m, map["scripts" := Obj(ViteScripts())]).value;
      assert l.Keys == r.Keys;
      assert l["scripts"] == r["scripts"];
      assert l == r;
    }
  }

  /** An existing client/package.json whose `scripts` is a dict is written
      back once, as the shared merge of the two scripts into it; nothing
      else changes. */
  lemma LegacyViteWritesPackageJson(st: State, c: Codec, projectDir: Path, m: map<string, Value>)
    requires Valid(st) && ReadJsonFn(st, c, Join(Join(projectDir, "client"), "package.json")) == Ok(Obj(m))
    requires "scripts" in m && m["scripts"].Obj?
    ensures NpmUtils.MergeValue(Obj(m), map["scripts" := Obj(ViteScripts())]).Ok?
    ensures var p := Join(Join(projectDir, "client"), "package.json");
      var a := Resolve(st, p);
      var r := LegacyUpdatePackageJsonForViteFn(st, c, projectDir);
      r.1 == Pass && r.0.files == st.files[a := c.dump(NpmUtils.MergeValue(Obj(m), map["scripts" := Obj(ViteScripts())]).value)]
      && r.0.log == st.log + [Wrote(a)] && r.0.cwd == st.cwd && r.0.dirs == st.dirs
  {
    InPlaceMatchesMerge(m);
  }

  method LegacyUpdatePackageJsonForVite(h: Host, c: Codec, projectDir: Path) returns (o: Outcome)
    modifies h
    ensures (h.Snap(), o) == LegacyUpdatePackageJsonForViteFn(old(h.Snap()), c, projectDir)
  {
    var p := Join(Join(projectDir, "client"), "package.json");
    var a := Join(h.cwd, p);
    if !(a in h.files || a in h.dirs) {
      return Pass;
    }
    var v := h.ReadJson(c, p);
    if v.Err? {
      return Fail(v.error);
    }
    var package := v.value;
    if !package.Obj? {
      return Fail(TypeError("object is not subscriptable"));
    }
    if "scripts" !in package.fields {
      return Fail(KeyError("scripts"));
    }
    var scripts := package.fields["scripts"];
    if !scripts.Obj? {
      return Fail(TypeError("object does not support item assignment"));
    }
    scripts := Obj(scripts.fields["start" := Str("vite")]["build" := Str("vite build")]);
    assert scripts.fields == package.fields["scripts"].fields + ViteScripts();
    package := Obj(package.fields["scripts" := scripts]);
    o := h.WriteJson(c, p, package);
  }

  // ---------------------------------------------------------------------
  // setup_vite_npm

  /** `f"{template}-ts"` when TypeScript is chosen, else the template. */
  function TemplateName(template: string, useTypescript: bool): (name: string)
    ensures useTypescript ==> name == template + "-ts"
    ensures !useTypescript ==> name == template
  {
    if useTypescript then template + "-ts" else template
  }

  function CreateCommand(platform: string, template: string, useTypescript: bool): seq<string> {
    [NpmUtils.Npm(platform), "create", "vite@latest", "client", "--", "--template", TemplateName(template, useTypescript)]
  }

  function InstallCommand(platform: string): seq<string> {
    [NpmUtils.Npm(platform), "install"]
  }

  /** `setup_vite_npm(project_dir, template, use_typescript)`: nothing after
      the directory change happens when vite is already a dependency. The
      current helper also adds the scripts and the proxy before going back
      up; any error there stops it inside client. */
  function SetupViteNpmFn(st: State, c: Codec, platform: string, variant: Variant, projectDir: Path, template: string, useTypescript: bool): (State, Outcome) {
    var st1 := ChDirFn(st, projectDir);
    match NpmUtils.CheckPackageFn(st1, c, "vite")
    case Err(e) => (st1, Fail(e))
    case Ok(listed) =>
      if listed then (st1, Pass)
      else
        var st2 := RunFn(ChDirFn(RunFn(st1, CreateCommand(platform, template, useTypescript)), "client"), InstallCommand(platform));
        if variant == Legacy then (ChDirFn(st2, ".."), Pass)
        else
          var (st3, o3) := UpdatePackageJsonForViteFn(st2, c, projectDir);
          if o3.Fail? then (st3, o3)
          else
            var (st4, o4) := ConfigureViteProxyFn(st3, Current, projectDir);
            if o4.Fail? then (st4, o4)
            else (ChDirFn(st4, ".."), Pass)
  }

  /** With vite listed in package.json, the setup only changes directory:
      no command runs and no file is written. */
  lemma SetupViteSkipsWhenListed(st: State, c: Codec, platform: string, variant: Variant, projectDir: Path, template: string, useTypescript: bool, m: map<string, Value>)
    requires ReadJsonFn(ChDirFn(st, projectDir), c, "package.json") == Ok(Obj(m))
    requires NpmUtils.WellFormedSection(m, "dependencies") && NpmUtils.WellFormedSection(m, "devDependencies")
    requires "vite" in NpmUtils.SectionKeys(m, "dependencies") || "vite" in NpmUtils.SectionKeys(m, "devDependencies")
    ensures SetupViteNpmFn(st, c, platform, variant, projectDir, template, useTypescript) == (ChDirFn(st, projectDir), Pass)
  {
    NpmUtils.CheckPackageMeaning(ChDirFn(st, projectDir), c, "vite", m);
  }

  /** The scaffold and `npm install`, logged in that order. */
  function ScaffoldLog(platform: string, template: string, useTypescript: bool): seq<Event> {
    [Ran(CreateCommand(platform, template, useTypescript)), Ran(InstallCommand(platform))]
  }

  /** Without vite listed, the older helper runs the scaffold and then
      `npm install`, writes nothing and goes back up. */
  lemma LegacySetupViteRunsScaffold(st: State, c: Codec, platform: string, projectDir: Path, template: string, useTypescript: bool)
    requires NpmUtils.CheckPackageFn(ChDirFn(st, projectDir), c, "vite") == Ok(false)
    ensures var r := SetupViteNpmFn(st, c, platform, Legacy, projectDir, template, useTypescript);
      r.1 == Pass && r.0.files == st.files && r.0.log == st.log + ScaffoldLog(platform, template, useTypescript)
  {
  }

  /** Without vite listed, the current helper also starts with the
      scaffold and `npm install`; at most the two edits follow. */
  lemma SetupViteRunsScaffold(st: State, c: Codec, platform: string, projectDir: Path, template: string, useTypescript: bool)
    requires NpmUtils.CheckPackageFn(ChDirFn(st, projectDir), c, "vite") == Ok(false)
    ensures var r := SetupViteNpmFn(st, c, platform, Current, projectDir, template, useTypescript);
      var pre := st.log + ScaffoldLog(platform, template, useTypescript);
      |pre| <= |r.0.log| <= |pre| + 2 && r.0.log[..|pre|] == pre
  {
    var st1 := ChDirFn(st, projectDir);
    var st2 := RunFn(ChDirFn(RunFn(st1, CreateCommand(platform, template, useTypescript)), "client"), InstallCommand(platform));
    assert st2.log == st.log + ScaffoldLog(platform, template, useTypescript);
    ViteEditsLog(st2, c, projectDir);
  }

  /** After the scaffold, the two edits of the current helper add at most
      one write each to the log. */
  lemma ViteEditsLog(st2: State, c: Codec, projectDir: Path)
    ensures var r3 := UpdatePackageJsonForViteFn(st2, c, projectDir);
      var r4 := ConfigureViteProxyFn(r3.0, Current, projectDir);
      var fin := if r3.1.Fail? then r3.0 else if r4.1.Fail? then r4.0 else ChDirFn(r4.0, "..");
      |st2.log| <= |fin.log| <= |st2.log| + 2 && fin.log[..|st2.log|] == st2.log
  {
    var r3 := UpdatePackageJsonForViteFn(st2, c, projectDir);
    var r4 := ConfigureViteProxyFn(r3.0, Current, projectDir);
    var l1, l2 := r3.0.log, r4.0.log;
    LogGrows(st2.log, l1, Wrote(Resolve(st2, NpmUtils.PackagePath(projectDir, Some("client")))));
    LogGrows(l1, l2, Wrote(Resolve(r3.0, ConfigPath(Current, projectDir))));
    assert l2[..|st2.log|] == l1[..|st2.log|];
  }

  lemma LogGrows(a: seq<Event>, b: seq<Event>, e: Event)
    requires b == a || b == a + [e]
    ensures |a| <= |b| <= |a| + 1 && b[..|a|] == a
  {
  }

  method SetupViteNpm(h: Host, c: Codec, platform: string, variant: Variant, projectDir: Path, template: string, useTypescript: bool) returns (o: Outcome)
    modifies h
    ensures (h.Snap(), o) == SetupViteNpmFn(old(h.Snap()), c, platform, variant, projectDir, template, useTypescript)
  {
    h.ChDir(projectDir);
    var listed := NpmUtils.CheckNpmPackage(h, c, "vite");
    if listed.Err? {
      return Fail(listed.error);
    }
    if listed.value {
      return Pass;
    }
    h.Run(CreateCommand(platform, template, useTypescript));
    h.ChDir("client");
    h.Run(InstallCommand(platform));
    if variant == Current {
      o := NpmUtils.UpdatePackageJson(h, c, projectDir, map["scripts" := Obj(ViteScripts())], Some("client"));
      if o.Fail? {
        return;
      }
      o := ConfigureViteProxy(h, Current, projectDir);
      if o.Fail? {
        return;
      }
    }
    h.ChDir("..");
    o := Pass;
  }
}
