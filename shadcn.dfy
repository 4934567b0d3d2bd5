/** Shadcn UI preparation of a Vite client: the `compilerOptions` patch of
    tsconfig.json, the fixed tsconfig.app.json, the @types/node install, a
    fixed vite.config.ts, and the init command. The newer helpers work in
    the directory they are given; the older ones work in its `client`
    subdirectory, write a vite config without a proxy, and run the
    `shadcn-ui` package. */
module Shadcn {
  import opened Base
  import opened Json
  import opened Fs
  import opened Text
  import NpmUtils

  // ---------------------------------------------------------------------
  // tsconfig.json

  /** The `paths` value: the "@" alias for the src directory. */
  function PathsValue(): Value {
    Obj(map["@/*" := Arr([Str("./src/*")])])
  }

  /** The in-place edit of `update_tsconfig_json` on the loaded value: an
      empty `compilerOptions` is added when absent, then `baseUrl` and
      `paths` are assigned in it. A top level or a `compilerOptions` that
      is not a dict raises TypeError. */
  function PatchTsconfig(v: Value): (r: Result<Value>)
    ensures r.Ok? <==> v.Obj? && ("compilerOptions" in v.fields ==> v.fields["compilerOptions"].Obj?)
    ensures r.Err? ==> r.error.TypeError?
  {
    if !v.Obj? then Err(TypeError("tsconfig.json is not an object"))
    else
      var m := if "compilerOptions" in v.fields then v.fields else v.fields["compilerOptions" := Obj(map[])];
      var co := m["compilerOptions"];
      if !co.Obj? then Err(TypeError("compilerOptions is not an object"))
      else Ok(Obj(m["compilerOptions" := Obj(co.fields["baseUrl" := Str(".")]["paths" := PathsValue()])]))
  }

  /** An accepted patch adds `compilerOptions` if it was missing, sets
      `baseUrl` and `paths` in it, and keeps every other key at both
      levels. */
  lemma PatchTsconfigMeaning(v: Value)
    requires PatchTsconfig(v).Ok?
    ensures var r := PatchTsconfig(v);
      var prev := if "compilerOptions" in v.fields then v.fields["compilerOptions"].fields else map[];
      r.value.Obj? && r.value.fields.Keys == v.fields.Keys + {"compilerOptions"}
      && (forall k :: k in v.fields && k != "compilerOptions" ==> r.value.fields[k] == v.fields[k])
      && r.value.fields["compilerOptions"].Obj?
      && r.value.fields["compilerOptions"].fields.Keys == prev.Keys + {"baseUrl", "paths"}
      && r.value.fields["compilerOptions"].fields["baseUrl"] == Str(".")
      && r.value.fields["compilerOptions"].fields["paths"] == PathsValue()
      && (forall k :: k in prev && k !in {"baseUrl", "paths"} ==> r.value.fields["compilerOptions"].fields[k] == prev[k])
  {
  }

  /** Patching a patched tsconfig changes nothing. */
  lemma PatchTsconfigIdempotent(v: Value)
    requires PatchTsconfig(v).Ok?
    ensures PatchTsconfig(PatchTsconfig(v).value) == PatchTsconfig(v)
  {
    var w := PatchTsconfig(v).value;
    var co := w.fields["compilerOptions"].fields;
    assert co["baseUrl" := Str(".")]["paths" := PathsValue()] == co;
    assert w.fields["compilerOptions" := Obj(co)] == w.fields;
  }

  /** `update_tsconfig_json(dir)`: nothing happens when the file is
      missing; otherwise it is read, patched and written back. */
  function UpdateTsconfigJsonFn(st: State, c: Codec, dir: Path): (r: (State, Outcome))
    ensures !Exists(st, Join(dir, "tsconfig.json")) ==> r == (st, Pass)
    ensures r.1.Fail? ==> r.0 == st
  {
    var p := Join(dir, "tsconfig.json");
    if !Exists(st, p) then (st, Pass)
    else match ReadJsonFn(st, c, p)
      case Err(e) => (st, Fail(e))
      case Ok(v) =>
        match PatchTsconfig(v)
        case Err(e) => (st, Fail(e))
        case Ok(v2) => WriteJsonFn(st, c, p, v2)
  }

  /** A readable tsconfig.json that accepts the patch is rewritten once,
      with the patched value, and no other file changes. */
  lemma UpdateTsconfigJsonWrites(st: State, c: Codec, dir: Path, v: Value)
    requires Valid(st) && IsFile(st, Join(dir, "tsconfig.json"))
    requires ReadJsonFn(st, c, Join(dir, "tsconfig.json")) == Ok(v) && PatchTsconfig(v).Ok?
    ensures var a := Resolve(st, Join(dir, "tsconfig.json"));
      UpdateTsconfigJsonFn(st, c, dir)
      == (st.(files := st.files[a := c.dump(PatchTsconfig(v).value)], log := st.log + [Wrote(a)]), Pass)
  {
  }

  method UpdateTsconfigJson(h: Host, c: Codec, dir: Path) returns (o: Outcome)
    modifies h
    ensures (h.Snap(), o) == UpdateTsconfigJsonFn(old(h.Snap()), c, dir)
  {
    var p := Join(dir, "tsconfig.json");
    var a := Join(h.cwd, p);
    if !(a in h.files || a in h.dirs) {
      return Pass;
    }
    var v := h.ReadJson(c, p);
    if v.Err? {
      return Fail(v.error);
    }
    if !v.value.Obj? {
      return Fail(TypeError("tsconfig.json is not an object"));
    }
    var tsconfig := v.value.fields;
    if "compilerOptions" !in tsconfig {
      tsconfig := tsconfig["compilerOptions" := Obj(map[])];
    }
    if !tsconfig["compilerOptions"].Obj? {
      return Fail(TypeError("compilerOptions is not an object"));
    }
    ghost var loaded := tsconfig;
    var co := tsconfig["compilerOptions"].fields;
    tsconfig := tsconfig["compilerOptions" := Obj(co["baseUrl" := Str(".")])];
    tsconfig := tsconfig["compilerOptions" := Obj(tsconfig["compilerOptions"].fields["paths" := PathsValue()])];
    assert tsconfig == loaded["compilerOptions" := Obj(co["baseUrl" := Str(".")]["paths" := PathsValue()])];
    assert PatchTsconfig(v.value) == Ok(Obj(tsconfig));
    o := h.WriteJson(c, p, Obj(tsconfig));
  }

  // ---------------------------------------------------------------------
  // tsconfig.app.json

  function Strs(xs: seq<string>): (v: Value)
    ensures v.Arr? && |v.items| == |xs|
    ensures forall i :: 0 <= i < |xs| ==> v.items[i] == Str(xs[i])
  {
    Arr(seq(|xs|, i requires 0 <= i < |xs| => Str(xs[i])))
  }

  /** The object `update_tsconfig_app_json` writes, whatever was there. */
  function TsconfigApp(): Value {
    Obj(map[
      "compilerOptions" := Obj(map[
        "target" := Str("ES2020"),
        "useDefineForClassFields" := Bool(true),
        "lib" := Strs(["ES2020", "DOM", "DOM.Iterable"]),
        "module" := Str("ESNext"),
        "skipLibCheck" := Bool(true),
        "moduleResolution" := Str("Bundler"),
        "allowImportingTsExtensions" := Bool(true),
        "isolatedModules" := Bool(true),
        "moduleDetection" := Str("force"),
        "noEmit" := Bool(true),
        "jsx" := Str("react-jsx"),
        "strict" := Bool(true),
        "noUnusedLocals" := Bool(true),
        "noUnusedParameters" := Bool(true),
        "noFallthroughCasesInSwitch" := Bool(true),
        "noUncheckedSideEffectImports" := Bool(true),
        "baseUrl" := Str("."),
        "paths" := PathsValue()
      ]),
      "include" := Strs(["src"])
    ])
  }

  /** The fixed tsconfig.app.json already carries the alias the tsconfig
      patch adds: patching it gives it back. */
  lemma TsconfigAppIsPatched()
    ensures PatchTsconfig(TsconfigApp()) == Ok(TsconfigApp())
  {
    var m := TsconfigApp().fields;
    var co := m["compilerOptions"].fields;
    assert co["baseUrl" := Str(".")]["paths" := PathsValue()] == co;
    assert m["compilerOptions" := Obj(co)] == m;
  }

  /** `update_tsconfig_app_json(dir)`: an existing file is replaced by the
      fixed object; a missing one is left missing. */
  function UpdateTsconfigAppJsonFn(st: State, c: Codec, dir: Path): (r: (State, Outcome))
    ensures !Exists(st, Join(dir, "tsconfig.app.json")) ==> r == (st, Pass)
    ensures IsFile(st, Join(dir, "tsconfig.app.json")) && Valid(st) ==>
      var a := Resolve(st, Join(dir, "tsconfig.app.json"));
      r.1 == Pass && r.0 == st.(files := st.files[a := c.dump(TsconfigApp())], log := st.log + [Wrote(a)])
  {
    var p := Join(dir, "tsconfig.app.json");
    if Exists(st, p) then WriteJsonFn(st, c, p, TsconfigApp()) else (st, Pass)
  }

  method UpdateTsconfigAppJson(h: Host, c: Codec, dir: Path) returns (o: Outcome)
    modifies h
    ensures (h.Snap(), o) == UpdateTsconfigAppJsonFn(old(h.Snap()), c, dir)
  {
    var p := Join(dir, "tsconfig.app.json");
    var a := Join(h.cwd, p);
    if a in h.files || a in h.dirs {
      o := h.WriteJson(c, p, TsconfigApp());
    } else {
      o := Pass;
    }
  }

  // ---------------------------------------------------------------------
  // vite.config.ts

  const AliasEntry: string := "\"@\": path.resolve(__dirname, \"./src\"),"
  const ProxyEntry: string := "'/api': 'http://localhost:8000',"

  /** The config the newer helper writes: the "@" alias and a proxy of
      /api to the backend. */
  const ViteConfigText: string :=
    "\nimport path from \"path\"\nimport react from \"@vitejs/plugin-react\"\nimport { defineConfig } from \"vite\"\n\nexport default defineConfig({\nplugins: [react()],\nresolve: {\n    alias: {\n    "
    + AliasEntry
    + "\n    },\n},\nserver: {\n    proxy: {\n        "
    + ProxyEntry
    + "\n    },\n},\n})\n"

  const Indent: string := "            "

  /** The older config, up to the alias entry and after it: the lines of
      a triple-quoted literal indented with the helper's code. */
  function LegacyViteLinesBefore(): seq<string> {
    ["", Indent + "import path from \"path\"", Indent + "import react from \"@vitejs/plugin-react\"",
     Indent + "import { defineConfig } from \"vite\"", "", Indent + "export default defineConfig({",
     Indent + "plugins: [react()],", Indent + "resolve: {", Indent + "    alias: {", Indent + "    "]
  }

  function LegacyViteLinesAfter(): seq<string> {
    ["", Indent + "    },", Indent + "},", Indent + "})", Indent]
  }

  /** The config the older helper writes: the alias and no server block. */
  const LegacyViteConfigText: string :=
    JoinLines(LegacyViteLinesBefore()) + AliasEntry + JoinLines(LegacyViteLinesAfter())

  lemma LegacyViteConfigHasAliasOnly()
    ensures Occurs(LegacyViteConfigText, AliasEntry)
    ensures !Occurs(LegacyViteConfigText, "proxy")
  {
    var a, z := JoinLines(LegacyViteLinesBefore()), JoinLines(LegacyViteLinesAfter());
    OccursInMiddle(a, AliasEntry, z);
    LegacyLinesLackY();
    assert 'y' !in LegacyViteConfigText;
    MissingChar(LegacyViteConfigText, "proxy", 4);
  }

  lemma LegacyLinesLackY()
    ensures 'y' !in JoinLines(LegacyViteLinesBefore()) && 'y' !in JoinLines(LegacyViteLinesAfter()) && 'y' !in AliasEntry
  {
    LegacyBeforeLacksY();
    LegacyAfterLacksY();
  }

  lemma LegacyBeforeLacksY()
    ensures 'y' !in JoinLines(LegacyViteLinesBefore())
  {
    var before := LegacyViteLinesBefore();
    forall i | 0 <= i < |before| ensures 'y' !in before[i] {
      if i < 5 { LegacyImportLacksY(i); } else { LegacyConfigLineLacksY(i); }
    }
    CharNotInLines('y', before);
  }

  lemma LegacyAfterLacksY()
    ensures 'y' !in JoinLines(LegacyViteLinesAfter()) && 'y' !in AliasEntry
  {
    var after := LegacyViteLinesAfter();
    assert 'y' !in Indent;
    forall i | 0 <= i < |after| ensures 'y' !in after[i] {
      if i == 1 { assert 'y' !in "    },"; }
      else if i == 2 { assert 'y' !in "},"; }
      else if i == 3 { assert 'y' !in "})"; }
    }
    CharNotInLines('y', after);
    AliasLacksY();
  }

  lemma AliasLacksY()
    ensures 'y' !in AliasEntry
  {
    assert 'y' !in "\"@\": path.resolve(__dirname, \"./src\"),";
  }

  lemma LegacyImportLacksY(i: nat)
    requires i < 5
    ensures 'y' !in LegacyViteLinesBefore()[i]
  {
    assert 'y' !in Indent;
    if i == 1 { assert 'y' !in "import path from \"path\""; }
    else if i == 2 { assert 'y' !in "import react from \"@vitejs/plugin-react\""; }
    else if i == 3 { assert 'y' !in "import { defineConfig } from \"vite\""; }
  }

  lemma LegacyConfigLineLacksY(i: nat)
    requires 5 <= i < |LegacyViteLinesBefore()|
    ensures 'y' !in LegacyViteLinesBefore()[i]
  {
    assert 'y' !in Indent;
    if i == 5 { assert 'y' !in "export default defineConfig({"; }
    else if i == 6 { assert 'y' !in "plugins: [react()],"; }
    else if i == 7 { assert 'y' !in "resolve: {"; }
    else if i == 8 { assert 'y' !in "    alias: {"; }
  }

  /** `update_vite_config(dir)`: an existing vite.config.ts is replaced by
      fixed text; a missing one is left missing. */
  function UpdateViteConfigFn(st: State, dir: Path, text: string): (r: (State, Outcome))
    ensures !Exists(st, Join(dir, "vite.config.ts")) ==> r == (st, Pass)
    ensures Exists(st, Join(dir, "vite.config.ts")) ==> r == WriteFn(st, Join(dir, "vite.config.ts"), text)
  {
    var p := Join(dir, "vite.config.ts");
    if Exists(st, p) then WriteFn(st, p, text) else (st, Pass)
  }

  method UpdateViteConfig(h: Host, dir: Path, text: string) returns (o: Outcome)
    modifies h
    ensures (h.Snap(), o) == UpdateViteConfigFn(old(h.Snap()), dir, text)
  {
    var p := Join(dir, "vite.config.ts");
    var a := Join(h.cwd, p);
    if a in h.files || a in h.dirs {
      o := h.Write(p, text);
    } else {
      o := Pass;
    }
  }

  // ---------------------------------------------------------------------
  // setup_shadcn_ui

  /** The two variants differ in where they work, the vite text and the
      package they initialise. */
  datatype Variant = Current | Legacy

  function WorkDir(variant: Variant, projectDir: Path): Path {
    if variant == Current then projectDir else Join(projectDir, "client")
  }

  function ViteText(variant: Variant): string {
    if variant == Current then ViteConfigText else LegacyViteConfigText
  }

  function InitCommand(variant: Variant, platform: string): seq<string> {
    [NpmUtils.Npx(platform), if variant == Current then "shadcn@latest" else "shadcn-ui@latest", "init"]
  }

  function TypesNodeCommand(platform: string): seq<string> {
    [NpmUtils.Npm(platform), "install", "-D", "@types/node"]
  }

  /** `setup_shadcn_ui(project_dir)`: the two tsconfig edits, the
      @types/node install, the vite config, then the init command, all in
      the variant's working directory. A failing install or init is caught
      by the helper and does not stop it. */
  function SetupShadcnUiFn(st: State, c: Codec, platform: string, variant: Variant, projectDir: Path): (State, Outcome) {
    SetupAt(st, c, platform, variant, WorkDir(variant, projectDir))
  }

  /** The two tsconfig edits in order; the second is skipped when the
      first fails. */
  function TsconfigsFn(st: State, c: Codec, dir: Path): (State, Outcome) {
    var (st1, o1) := UpdateTsconfigJsonFn(st, c, dir);
    if o1.Fail? then (st1, o1) else UpdateTsconfigAppJsonFn(st1, c, dir)
  }

  /** The steps after the two tsconfig edits: `@types/node`, the Vite
      config and the `shadcn init` command, each from `dir`. */
  function ShadcnInitFn(st: State, platform: string, variant: Variant, dir: Path): (State, Outcome) {
    var st1 := RunFn(ChDirFn(st, dir), TypesNodeCommand(platform));
    var (st2, o2) := UpdateViteConfigFn(st1, dir, ViteText(variant));
    if o2.Fail? then (st2, o2)
    else (RunFn(ChDirFn(st2, dir), InitCommand(variant, platform)), Pass)
  }

  /** An absolute path stays put whatever the working directory. */
  lemma ResolveAbsolute(st: State, dir: Path, name: Path)
    requires StartsWith(dir, "/")
    ensures Resolve(st, Join(dir, name)) == Join(dir, name)
  {
  }

  /** With the three files present and the patch accepted, the setup
      writes tsconfig.json, then tsconfig.app.json, installs @types/node,
      writes vite.config.ts and only then runs the init command. */
  lemma SetupShadcnUiOrder(st: State, c: Codec, platform: string, variant: Variant, projectDir: Path, v: Value)
    requires Valid(st) && StartsWith(projectDir, "/")
    requires var dir := WorkDir(variant, projectDir);
      IsFile(st, Join(dir, "tsconfig.json")) && IsFile(st, Join(dir, "tsconfig.app.json")) && IsFile(st, Join(dir, "vite.config.ts"))
    requires ReadJsonFn(st, c, Join(WorkDir(variant, projectDir), "tsconfig.json")) == Ok(v) && PatchTsconfig(v).Ok?
    ensures var dir := WorkDir(variant, projectDir);
      var r := SetupShadcnUiFn(st, c, platform, variant, projectDir);
      r.1 == Pass
      && r.0.log == st.log + [Wrote(Join(dir, "tsconfig.json")), Wrote(Join(dir, "tsconfig.app.json")),
                             Ran(TypesNodeCommand(platform)), Wrote(Join(dir, "vite.config.ts")),
                             Ran(InitCommand(variant, platform))]
      && Join(dir, "vite.config.ts") in r.0.files && r.0.files[Join(dir, "vite.config.ts")] == ViteText(variant)
      && Join(dir, "tsconfig.app.json") in r.0.files && r.0.files[Join(dir, "tsconfig.app.json")] == c.dump(TsconfigApp())
  {
    var dir := WorkDir(variant, projectDir);
    assert StartsWith(dir, "/");
    JoinInjective(dir, "vite.config.ts", "tsconfig.app.json");
    SetupAtWrites(st, c, platform, variant, dir, v);
  }

  /** The set-up run from its working directory. */
  function SetupAt(st: State, c: Codec, platform: string, variant: Variant, dir: Path): (State, Outcome) {
    var (st2, o2) := TsconfigsFn(st, c, dir);
    if o2.Fail? then (st2, o2) else ShadcnInitFn(st2, platform, variant, dir)
  }

  /** The set-up run from an absolute directory holding the three files
      reaches one explicit final state. */
  lemma SetupAtWrites(st: State, c: Codec, platform: string, variant: Variant, dir: Path, v: Value)
    requires Valid(st) && StartsWith(dir, "/")
    requires IsFile(st, Join(dir, "tsconfig.json")) && IsFile(st, Join(dir, "tsconfig.app.json")) && IsFile(st, Join(dir, "vite.config.ts"))
    requires ReadJsonFn(st, c, Join(dir, "tsconfig.json")) == Ok(v) && PatchTsconfig(v).Ok?
    ensures var t, ta, vc := Join(dir, "tsconfig.json"), Join(dir, "tsconfig.app.json"), Join(dir, "vite.config.ts");
      SetupAt(st, c, platform, variant, dir)
      == (st.(files := st.files[t := c.dump(PatchTsconfig(v).value)][ta := c.dump(TsconfigApp())][vc := ViteText(variant)],
              log := st.log + [Wrote(t), Wrote(ta), Ran(TypesNodeCommand(platform)), Wrote(vc), Ran(InitCommand(variant, platform))],
              cwd := dir), Pass)
  {
    var t, ta, vc := Join(dir, "tsconfig.json"), Join(dir, "tsconfig.app.json"), Join(dir, "vite.config.ts");
    ResolveAbsolute(st, dir, "vite.config.ts");
    TsconfigsWrite(st, c, dir, v);
    var st2 := st.(files := st.files[t := c.dump(PatchTsconfig(v).value)][ta := c.dump(TsconfigApp())],
                   log := st.log + [Wrote(t), Wrote(ta)]);
    ResolveAbsolute(st2, dir, "vite.config.ts");
    ShadcnInitWrites(st2, platform, variant, dir);
    var later := [Ran(TypesNodeCommand(platform)), Wrote(vc), Ran(InitCommand(variant, platform))];
    AppendAssoc(st.log, [Wrote(t), Wrote(ta)], later);
    AppendTwoThree(Wrote(t), Wrote(ta), Ran(TypesNodeCommand(platform)), Wrote(vc), Ran(InitCommand(variant, platform)));
  }

  /** From an absolute directory holding both tsconfig files, with the
      patch accepted, the two edits write tsconfig.json and then
      tsconfig.app.json and keep the state valid. */
  lemma TsconfigsWrite(st: State, c: Codec, dir: Path, v: Value)
    requires Valid(st) && StartsWith(dir, "/")
    requires IsFile(st, Join(dir, "tsconfig.json")) && IsFile(st, Join(dir, "tsconfig.app.json"))
    requires ReadJsonFn(st, c, Join(dir, "tsconfig.json")) == Ok(v) && PatchTsconfig(v).Ok?
    ensures var t, ta := Join(dir, "tsconfig.json"), Join(dir, "tsconfig.app.json");
      var st2 := st.(files := st.files[t := c.dump(PatchTsconfig(v).value)][ta := c.dump(TsconfigApp())],
                     log := st.log + [Wrote(t), Wrote(ta)]);
      TsconfigsFn(st, c, dir) == (st2, Pass) && Valid(st2)
  {
    var t, ta := Join(dir, "tsconfig.json"), Join(dir, "tsconfig.app.json");
    ResolveAbsolute(st, dir, "tsconfig.json");
    UpdateTsconfigJsonWrites(st, c, dir, v);
    var st1 := st.(files := st.files[t := c.dump(PatchTsconfig(v).value)], log := st.log + [Wrote(t)]);
    assert Valid(st1) by { WriteKeepsValid(st, t, c.dump(PatchTsconfig(v).value)); }
    ResolveAbsolute(st1, dir, "tsconfig.app.json");
    ResolveAbsolute(st, dir, "tsconfig.app.json");
    assert IsFile(st1, ta);
    AppendAssoc(st.log, [Wrote(t)], [Wrote(ta)]);
    assert [Wrote(t)] + [Wrote(ta)] == [Wrote(t), Wrote(ta)];
  }

  /** From an absolute directory holding vite.config.ts, the last steps
      install `@types/node`, rewrite the config and run the init. */
  lemma ShadcnInitWrites(st: State, platform: string, variant: Variant, dir: Path)
    requires Valid(st) && StartsWith(dir, "/") && IsFile(st, Join(dir, "vite.config.ts"))
    ensures var vc := Join(dir, "vite.config.ts");
      ShadcnInitFn(st, platform, variant, dir)
      == (st.(files := st.files[vc := ViteText(variant)],
              log := st.log + [Ran(TypesNodeCommand(platform)), Wrote(vc), Ran(InitCommand(variant, platform))],
              cwd := dir), Pass)
  {
    var vc := Join(dir, "vite.config.ts");
    ResolveAbsolute(st, dir, "vite.config.ts");
    assert ChDirFn(st, dir).cwd == dir by { assert dir[0] == '/' && ".."[0] == '.'; }
    var st1 := RunFn(ChDirFn(st, dir), TypesNodeCommand(platform));
    ResolveAbsolute(st1, dir, "vite.config.ts");
    assert vc in st1.files && vc !in st1.dirs;
    var st2 := st1.(files := st1.files[vc := ViteText(variant)], log := st1.log + [Wrote(vc)]);
    assert ChDirFn(st2, dir).cwd == dir by { assert dir[0] == '/' && ".."[0] == '.'; }
    var r1, w, r2 := Ran(TypesNodeCommand(platform)), Wrote(vc), Ran(InitCommand(variant, platform));
    AppendAssoc(st.log, [r1], [w]);
    AppendAssoc(st.log, [r1] + [w], [r2]);
    assert [r1] + [w] + [r2] == [r1, w, r2];
  }

  method SetupShadcnUi(h: Host, c: Codec, platform: string, variant: Variant, projectDir: Path) returns (o: Outcome)
    modifies h
    ensures (h.Snap(), o) == SetupShadcnUiFn(old(h.Snap()), c, platform, variant, projectDir)
  {
    var dir := WorkDir(variant, projectDir);
    o := Tsconfigs(h, c, dir);
    if o.Fail? {
      return;
    }
    o := ShadcnInit(h, platform, variant, dir);
  }

  method Tsconfigs(h: Host, c: Codec, dir: Path) returns (o: Outcome)
    modifies h
    ensures (h.Snap(), o) == TsconfigsFn(old(h.Snap()), c, dir)
  {
    o := UpdateTsconfigJson(h, c, dir);
    if o.Fail? {
      return;
    }
    o := UpdateTsconfigAppJson(h, c, dir);
  }

  method ShadcnInit(h: Host, platform: string, variant: Variant, dir: Path) returns (o: Outcome)
    modifies h
    ensures (h.Snap(), o) == ShadcnInitFn(old(h.Snap()), platform, variant, dir)
  {
    h.ChDir(dir);
    h.Run(TypesNodeCommand(platform));
    o := UpdateViteConfig(h, dir, ViteText(variant));
    if o.Fail? {
      return;
    }
    h.ChDir(dir);
    h.Run(InitCommand(variant, platform));
    o := Pass;
  }
}
