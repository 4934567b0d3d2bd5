/** Tailwind on npm for the React client: the install plan, the script
    set merged into package.json, and the rewrite of the two markers in
    tailwind.config.js. */
module TailwindSrc {
  import opened Base
  import opened Json
  import opened Fs
  import opened Text
  import NpmUtils

  // ---------------------------------------------------------------------
  // Scripts

  function TailwindScripts(): map<string, Value> {
    map["dev" := Str("vite"), "build" := Str("vite build"), "preview" := Str("vite preview")]
  }

  /** `update_package_json_for_tailwind(project_dir)`. */
  function UpdatePackageJsonForTailwindFn(st: State, c: Codec, projectDir: Path): (State, Outcome) {
    NpmUtils.UpdatePackageJsonFn(st, c, projectDir, map["scripts" := Obj(TailwindScripts())], None)
  }

  /** dev, build and preview become the Vite commands; other scripts and
      other keys of package.json are kept. */
  lemma TailwindScriptsMerged(m: map<string, Value>)
    requires NpmUtils.WellFormedSection(m, "scripts")
    ensures var r := NpmUtils.MergeObj(m, map["scripts" := Obj(TailwindScripts())]);
      r.Ok?
      && r.value["scripts"].Obj?
      && r.value["scripts"].fields["dev"] == Str("vite")
      && r.value["scripts"].fields["build"] == Str("vite build")
      && r.value["scripts"].fields["preview"] == Str("vite preview")
      && (forall k :: k in NpmUtils.Scripts(m) && k !in {"dev", "build", "preview"} ==> r.value["scripts"].fields[k] == NpmUtils.Scripts(m)[k])
      && (forall k :: k in m && k != "scripts" ==> r.value[k] == m[k])
  {
    NpmUtils.MergeScripts(m, TailwindScripts());
  }

  // ---------------------------------------------------------------------
  // Install plan

  /** One `npm install -D @tailwindcss/<p>` per plugin, in list order. */
  function PluginInstalls(npm: string, plugins: seq<string>): (cmds: seq<seq<string>>)
    ensures |cmds| == |plugins|
    ensures forall i :: 0 <= i < |plugins| ==> cmds[i] == [npm, "install", "-D", "@tailwindcss/" + plugins[i]]
  {
    if plugins == [] then [] else [[npm, "install", "-D", "@tailwindcss/" + plugins[0]]] + PluginInstalls(npm, plugins[1..])
  }

  lemma {:induction false} PluginInstallsAppend(npm: string, a: seq<string>, b: seq<string>)
    ensures PluginInstalls(npm, a + b) == PluginInstalls(npm, a) + PluginInstalls(npm, b)
  {
    var l, r := PluginInstalls(npm, a + b), PluginInstalls(npm, a) + PluginInstalls(npm, b);
    forall i | 0 <= i < |l| ensures l[i] == r[i] {
      if i < |a| { assert (a + b)[i] == a[i]; } else { assert (a + b)[i] == b[i - |a|]; }
    }
  }

  function BaseInstall(npm: string): seq<seq<string>> {
    [[npm, "init", "-y"], [npm, "install", "-D", "tailwindcss", "@tailwindcss/vite", "autoprefixer", "postcss"]]
  }

  /** The commands `setup_tailwind_npm` issues once it knows whether
      tailwindcss is already a dependency: the base install only when it
      is not, then the init, the plugins in order, and Geist last. */
  function TailwindNpmCommands(platform: string, installed: bool, plugins: seq<string>, fonts: bool): (cmds: seq<seq<string>>)
    ensures var base := if installed then 0 else 2;
      |cmds| == base + 1 + |plugins| + (if fonts then 1 else 0)
      && (!installed ==> cmds[..2] == BaseInstall(NpmUtils.Npm(platform)))
      && cmds[base] == [NpmUtils.Npx(platform), "tailwindcss", "init", "-p"]
      && (forall i :: 0 <= i < |plugins| ==> cmds[base + 1 + i] == [NpmUtils.Npm(platform), "install", "-D", "@tailwindcss/" + plugins[i]])
      && (fonts ==> cmds[|cmds| - 1] == [NpmUtils.Npm(platform), "i", "geist"])
  {
    var npm := NpmUtils.Npm(platform);
    (if installed then [] else BaseInstall(npm))
    + [[NpmUtils.Npx(platform), "tailwindcss", "init", "-p"]]
    + PluginInstalls(npm, plugins)
    + (if fonts then [[npm, "i", "geist"]] else [])
  }

  /** `setup_tailwind_npm(project_dir, plugins, fonts)`: the dependency
      check reads package.json in the project directory; an error there
      stops the setup after the directory change. */
  function SetupTailwindNpmFn(st: State, c: Codec, platform: string, projectDir: Path, plugins: seq<string>, fonts: bool): (State, Outcome) {
    var st1 := ChDirFn(st, projectDir);
    match NpmUtils.CheckPackageFn(st1, c, "tailwindcss")
    case Err(e) => (st1, Fail(e))
    case Ok(installed) =>
      UpdatePackageJsonForTailwindFn(RunAllFn(st1, TailwindNpmCommands(platform, installed, plugins, fonts)), c, projectDir)
  }

  /** The plugin loop: one install per plugin, in list order. */
  method InstallPlugins(h: Host, npm: string, plugins: seq<string>)
    modifies h
    ensures h.Snap() == RunAllFn(old(h.Snap()), PluginInstalls(npm, plugins))
  {
    ghost var st0 := h.Snap();
    var i := 0;
    while i < |plugins|
      invariant 0 <= i <= |plugins|
      invariant h.Snap() == RunAllFn(st0, PluginInstalls(npm, plugins[..i]))
    {
      ghost var before := h.Snap();
      var cmd := [npm, "install", "-D", "@tailwindcss/" + plugins[i]];
      h.Run(cmd);
      RunIsRunAll(before, cmd);
      RunAllAppend(st0, PluginInstalls(npm, plugins[..i]), [cmd]);
      PluginInstallsAppend(npm, plugins[..i], [plugins[i]]);
      assert plugins[..i + 1] == plugins[..i] + [plugins[i]];
      i := i + 1;
    }
    assert plugins[..i] == plugins;
  }

  method SetupTailwindNpm(h: Host, c: Codec, platform: string, projectDir: Path, plugins: seq<string>, fonts: bool) returns (o: Outcome)
    modifies h
    ensures (h.Snap(), o) == SetupTailwindNpmFn(old(h.Snap()), c, platform, projectDir, plugins, fonts)
  {
    h.ChDir(projectDir);
    var npm := NpmUtils.Npm(platform);
    var npx := NpmUtils.Npx(platform);
    var installed := NpmUtils.CheckNpmPackage(h, c, "tailwindcss");
    if installed.Err? {
      return Fail(installed.error);
    }
    ghost var st1 := h.Snap();
    var prefix: seq<seq<string>> := if installed.value then [] else BaseInstall(npm);
    prefix := prefix + [[npx, "tailwindcss", "init", "-p"]];
    var suffix: seq<seq<string>> := if fonts then [[npm, "i", "geist"]] else [];
    h.RunCommands(prefix);
    InstallPlugins(h, npm, plugins);
    h.RunCommands(suffix);
    RunAllAppend(st1, prefix, PluginInstalls(npm, plugins));
    RunAllAppend(st1, prefix + PluginInstalls(npm, plugins), suffix);
    assert TailwindNpmCommands(platform, installed.value, plugins, fonts) == prefix + PluginInstalls(npm, plugins) + suffix;
    o := NpmUtils.UpdatePackageJson(h, c, projectDir, map["scripts" := Obj(TailwindScripts())], None);
  }

  // ---------------------------------------------------------------------
  // tailwind.config.js markers

  const PluginsMarker: string := "plugins: [__PLUGINS__],"
  const FontsMarker: string := "fontFamily: {__FONTS__},"

  /** The Geist block: GeistMono for `mono`, then GeistSans for `sans`. */
  const FontsReplacement: string :=
    "fontFamily: {" + "\n\t\t\t\tmono: ['" + "GeistMono" + "', ...defaultTheme.fontFamily.mono],"
    + "\n\t\t\t\tsans: ['" + "GeistSans" + "', ...defaultTheme.fontFamily.sans]," + "\n\t\t\t},"

  function PluginLine(plugin: string): string {
    "\n\t\trequire('@tailwindcss/" + plugin + "'),"
  }

  /** The require lines of the plugins, joined in list order. */
  function PluginImports(plugins: seq<string>): string {
    if plugins == [] then [] else PluginLine(plugins[0]) + PluginImports(plugins[1..])
  }

  function PluginsReplacement(plugins: seq<string>): string {
    "plugins: [" + PluginImports(plugins) + "\n\t],"
  }

  /** The edit `update_tailwind_config` writes back: every plugins marker
      replaced, then, when fonts are wanted, every fonts marker. */
  function NewConfig(config: string, plugins: seq<string>, fonts: bool): string {
    var once := ReplaceAll(config, PluginsMarker, PluginsReplacement(plugins));
    if fonts then ReplaceAll(once, FontsMarker, FontsReplacement) else once
  }

  /** The import block is the in-order concatenation of the plugins' lines. */
  lemma {:induction false} PluginImportsAppend(a: seq<string>, b: seq<string>)
    ensures PluginImports(a + b) == PluginImports(a) + PluginImports(b)
    decreases |a|
  {
    if a == [] {
      assert a + b == b;
    } else {
      assert (a + b)[0] == a[0];
      assert (a + b)[1..] == a[1..] + b;
      PluginImportsAppend(a[1..], b);
    }
  }

  lemma PluginImportsOne(p: string)
    ensures PluginImports([p]) == PluginLine(p)
  {
    assert [p][1..] == [];
  }

  /** With no plugins the marker becomes an empty list. */
  lemma NoPluginsReplacement()
    ensures PluginsReplacement([]) == "plugins: [\n\t],"
  {
  }

  /** Neither marker present: the file is written back unchanged. */
  lemma NewConfigWithoutMarkers(config: string, plugins: seq<string>, fonts: bool)
    requires !Occurs(config, PluginsMarker)
    requires fonts ==> !Occurs(config, FontsMarker)
    ensures NewConfig(config, plugins, fonts) == config
  {
    ReplaceAbsent(config, PluginsMarker, PluginsReplacement(plugins));
    if fonts {
      ReplaceAbsent(config, FontsMarker, FontsReplacement);
    }
  }

  /** Without fonts the fonts marker is never touched. */
  lemma FontsMarkerKeptWithoutFonts(config: string, plugins: seq<string>)
    requires Occurs(config, FontsMarker)
    ensures Occurs(NewConfig(config, plugins, false), FontsMarker)
  {
    assert FontsMarker[0] !in PluginsMarker;
    ReplaceKeepsWord(config, PluginsMarker, PluginsReplacement(plugins), FontsMarker);
  }

  /** A character outside the fixed text of the import lines and outside
      every plugin name is outside the whole block. */
  lemma {:induction false} CharNotInImports(ch: char, plugins: seq<string>)
    requires ch !in "\n\t\trequire('@tailwindcss/'),"
    requires forall i :: 0 <= i < |plugins| ==> ch !in plugins[i]
    ensures ch !in PluginImports(plugins)
    decreases |plugins|
  {
    if plugins != [] {
      CharNotInImports(ch, plugins[1..]);
      var line := PluginLine(plugins[0]);
      assert ch !in "\n\t\trequire('@tailwindcss/";
      assert ch !in "'),";
      assert ch !in line;
    }
  }

  /** The plugins block cannot meet the fonts marker: it has no '{', the
      marker's anchor, and its first and last characters continue the
      marker on neither side. */
  lemma PluginsBlockAvoidsFonts(plugins: seq<string>)
    requires forall i :: 0 <= i < |plugins| ==> '{' !in plugins[i]
    ensures var pr := PluginsReplacement(plugins);
      pr != [] && FontsMarker[12] !in pr && pr[0] !in FontsMarker[13..] && pr[|pr| - 1] !in FontsMarker[..12]
  {
    CharNotInImports('{', plugins);
    var head, imports, tail := "plugins: [", PluginImports(plugins), "\n\t],";
    assert '{' !in head && '{' !in tail;
    assert (head + imports + tail)[0] == head[0] == 'p';
    assert (head + imports + tail)[|head + imports + tail| - 1] == tail[|tail| - 1] == ',';
    FontsMarkerEnds();
  }

  /** The fonts marker's anchor '{', and the characters on either side. */
  lemma FontsMarkerEnds()
    ensures FontsMarker[12] == '{' && 'p' !in FontsMarker[13..] && ',' !in FontsMarker[..12]
  {
    assert FontsMarker[13..] == "__FONTS__},";
    assert FontsMarker[..12] == "fontFamily: ";
  }

  /** The first plugins marker, with none after it, becomes the in-order
      require block; the text around it is kept. */
  lemma PluginsMarkerRewritten(pre: string, rest: string, plugins: seq<string>)
    requires forall i :: 0 <= i < |pre| ==> !OccursAt(pre + PluginsMarker + rest, PluginsMarker, i)
    requires !Occurs(rest, PluginsMarker)
    ensures ReplaceAll(pre + PluginsMarker + rest, PluginsMarker, PluginsReplacement(plugins))
         == pre + PluginsReplacement(plugins) + rest
  {
    ReplaceFirst(pre, PluginsMarker, rest, PluginsReplacement(plugins));
  }

  /** The first fonts marker, with none after it, becomes the Geist block;
      the text around it is kept. */
  lemma FontsMarkerRewritten(pre: string, post: string)
    requires forall i :: 0 <= i < |pre| ==> !OccursAt(pre + FontsMarker + post, FontsMarker, i)
    requires !Occurs(post, FontsMarker)
    ensures ReplaceAll(pre + FontsMarker + post, FontsMarker, FontsReplacement) == pre + FontsReplacement + post
  {
    ReplaceFirst(pre, FontsMarker, post, FontsReplacement);
  }

  /** On a config holding each marker exactly once, the plugins marker
      first, the plugins marker becomes the in-order require block and the
      fonts marker becomes the Geist block exactly when fonts are wanted;
      the rest of the text is kept. */
  lemma NewConfigOnTemplate(pre: string, mid: string, post: string, plugins: seq<string>, fonts: bool)
    requires forall i :: 0 <= i < |plugins| ==> '{' !in plugins[i]
    requires var config := pre + PluginsMarker + mid + FontsMarker + post;
      OnlyAt(config, PluginsMarker, |pre|) && OnlyAt(config, FontsMarker, |pre| + |PluginsMarker| + |mid|)
    ensures NewConfig(pre + PluginsMarker + mid + FontsMarker + post, plugins, fonts)
         == pre + PluginsReplacement(plugins) + mid + (if fonts then FontsReplacement else FontsMarker) + post
  {
    var pm, fm, pr := PluginsMarker, FontsMarker, PluginsReplacement(plugins);
    var rest := mid + fm + post;
    AppendAssoc(mid, fm, post);
    AppendAssoc(pre + pm, mid, fm + post);
    AppendAssoc(pre + pm + mid, fm, post);
    assert pre + pm + mid + fm + post == pre + pm + rest;
    OnlyAtSplit(pre, pm, rest);
    ReplaceFirst(pre, pm, rest, pr);
    var x := pre + pr + mid;
    AppendAssoc(pre + pr, mid, fm + post);
    AppendAssoc(x, fm, post);
    assert pre + pr + rest == x + fm + post;
    if fonts {
      PluginsBlockAvoidsFonts(plugins);
      OnlyAtAcrossSwap(pre, pr, pm, rest, fm, 12, |pre| + |pm| + |mid|);
      OnlyAtSplit(x, fm, post);
      ReplaceFirst(x, fm, post, FontsReplacement);
    }
  }

  /** The same with the fonts marker first, as in a config whose `theme`
      comes before its `plugins`. */
  lemma NewConfigFontsFirst(pre: string, mid: string, post: string, plugins: seq<string>, fonts: bool)
    requires forall i :: 0 <= i < |plugins| ==> '{' !in plugins[i]
    requires var config := pre + FontsMarker + mid + PluginsMarker + post;
      OnlyAt(config, FontsMarker, |pre|) && OnlyAt(config, PluginsMarker, |pre| + |FontsMarker| + |mid|)
    ensures NewConfig(pre + FontsMarker + mid + PluginsMarker + post, plugins, fonts)
         == pre + (if fonts then FontsReplacement else FontsMarker) + mid + PluginsReplacement(plugins) + post
  {
    var pm, fm, pr := PluginsMarker, FontsMarker, PluginsReplacement(plugins);
    var x := pre + fm + mid;
    OnlyAtSplit(x, pm, post);
    ReplaceFirst(x, pm, post, pr);
    if fonts {
      PluginsBlockAvoidsFonts(plugins);
      OnlyAtAcrossSwap(x, pr, pm, post, fm, 12, |pre|);
      var tail := mid + pr + post;
      AppendAssoc(pre + fm, mid, pr + post);
      AppendAssoc(mid, pr, post);
      AppendAssoc(x, pr, post);
      assert x + pr + post == pre + fm + tail;
      OnlyAtSplit(pre, fm, tail);
      ReplaceFirst(pre, fm, tail, FontsReplacement);
      AppendAssoc(pre + FontsReplacement, mid, pr + post);
      AppendAssoc(pre + FontsReplacement + mid, pr, post);
    }
  }

  /** In the Geist block the GeistMono family comes before GeistSans. */
  lemma FontsMonoBeforeSans()
    ensures exists i, j :: 0 <= i < j && OccursAt(FontsReplacement, "GeistMono", i) && OccursAt(FontsReplacement, "GeistSans", j)
  {
    var a := "fontFamily: {" + "\n\t\t\t\tmono: ['";
    var b := "', ...defaultTheme.fontFamily.mono]," + "\n\t\t\t\tsans: ['";
    var c := "', ...defaultTheme.fontFamily.sans]," + "\n\t\t\t},";
    assert FontsReplacement == a + "GeistMono" + (b + "GeistSans" + c);
    OccursInMiddle(a, "GeistMono", b + "GeistSans" + c);
    assert FontsReplacement == (a + "GeistMono" + b) + "GeistSans" + c;
    OccursInMiddle(a + "GeistMono" + b, "GeistSans", c);
  }

  /** `update_tailwind_config(filename, plugins, fonts)`: the file is read
      without an existence check, so a missing file raises; an existing one
      is written back as `NewConfig` of its text, and nothing else changes. */
  function UpdateTailwindConfigFn(st: State, filename: Path, plugins: seq<string>, fonts: bool): (r: (State, Outcome))
    ensures !IsFile(st, filename) ==> r.1.Fail? && r.0 == st
    ensures Valid(st) && IsFile(st, filename) ==>
      var a := Resolve(st, filename);
      r.1 == Pass && r.0.files == st.files[a := NewConfig(st.files[a], plugins, fonts)] &&
      r.0.dirs == st.dirs && r.0.cwd == st.cwd && r.0.log == st.log + [Wrote(a)]
  {
    match ReadFn(st, filename)
    case Err(e) => (st, Fail(e))
    case Ok(config) => WriteFn(st, filename, NewConfig(config, plugins, fonts))
  }

  method UpdateTailwindConfig(h: Host, filename: Path, plugins: seq<string>, fonts: bool) returns (o: Outcome)
    modifies h
    ensures (h.Snap(), o) == UpdateTailwindConfigFn(old(h.Snap()), filename, plugins, fonts)
  {
    var config := h.Read(filename);
    if config.Err? {
      return Fail(config.error);
    }
    var updated := ReplaceAll(config.value, PluginsMarker, PluginsReplacement(plugins));
    if fonts {
      updated := ReplaceAll(updated, FontsMarker, FontsReplacement);
    }
    o := h.Write(filename, updated);
  }
}
