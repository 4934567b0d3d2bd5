/** The bun variants of the client setup: a Vite scaffold with bun's own
    scripts, and Tailwind with its plugins. Their `check_system`,
    `check_bun_package` and `update_package_json` are the npm helpers'
    code and are modelled there. */
module BunUtils {
  import opened Base
  import opened Json
  import opened Fs
  import NpmUtils

  /** The scripts `setup_vite_bun` merges into client/package.json. */
  function ViteBunScripts(): map<string, Value> {
    map["start" := Str("bun run dev"), "dev" := Str("bun run --bun vite"),
        "build" := Str("bun run build"), "preview" := Str("bun run preview")]
  }

  /** The Vite scaffold command: the template is chosen by `use_typescript`
      alone, whatever template name the caller passes. */
  function ViteCreateCommand(template: string, useTypescript: bool): (cmd: seq<string>)
    ensures |cmd| == 6 && cmd[..5] == ["bun", "create", "vite", ".", "--template"]
    ensures cmd[5] == "react-ts" <==> useTypescript
    ensures cmd[5] == "react" <==> !useTypescript
  {
    ["bun", "create", "vite", ".", "--template", if useTypescript then "react-ts" else "react"]
  }

  lemma ViteCreateIgnoresTemplate(t1: string, t2: string, useTypescript: bool)
    ensures ViteCreateCommand(t1, useTypescript) == ViteCreateCommand(t2, useTypescript)
  {
  }

  /** `setup_vite_bun(app_dir, template, use_typescript)`. */
  function SetupViteBunFn(st: State, c: Codec, appDir: Path, template: string, useTypescript: bool): (State, Outcome) {
    var client := Join(appDir, "client");
    var (st1, o1) := MakeDirsFn(st, client);
    if o1.Fail? then (st1, o1)
    else
      var st2 := RunAllFn(ChDirFn(st1, client), [ViteCreateCommand(template, useTypescript), ["bun", "install"]]);
      var (st3, o3) := NpmUtils.UpdatePackageJsonFn(st2, c, client, map["scripts" := Obj(ViteBunScripts())], None);
      if o3.Fail? then (st3, o3)
      else (ChDirFn(st3, appDir), Pass)
  }

  /** The bun scripts are merged into whatever package.json holds: the
      four script names get bun's commands, other scripts and every other
      key are kept. */
  lemma ViteBunScriptsMerged(m: map<string, Value>)
    requires NpmUtils.WellFormedSection(m, "scripts")
    ensures var r := NpmUtils.MergeObj(m, map["scripts" := Obj(ViteBunScripts())]);
      r.Ok?
      && r.value["scripts"].Obj?
      && r.value["scripts"].fields["start"] == Str("bun run dev")
      && r.value["scripts"].fields["dev"] == Str("bun run --bun vite")
      && r.value["scripts"].fields["build"] == Str("bun run build")
      && r.value["scripts"].fields["preview"] == Str("bun run preview")
      && (forall k :: k in NpmUtils.Scripts(m) && k !in {"start", "dev", "build", "preview"} ==> r.value["scripts"].fields[k] == NpmUtils.Scripts(m)[k])
      && (forall k :: k in m && k != "scripts" ==> r.value[k] == m[k])
  {
    NpmUtils.MergeScripts(m, ViteBunScripts());
  }

  method SetupViteBun(h: Host, c: Codec, appDir: Path, template: string, useTypescript: bool) returns (o: Outcome)
    modifies h
    ensures (h.Snap(), o) == SetupViteBunFn(old(h.Snap()), c, appDir, template, useTypescript)
  {
    var client := Join(appDir, "client");
    o := h.MakeDirs(client);
    if o.Fail? {
      return;
    }
    h.ChDir(client);
    ghost var st2 := h.Snap();
    h.Run(ViteCreateCommand(template, useTypescript));
    h.Run(["bun", "install"]);
    RunIsRunAll(st2, ViteCreateCommand(template, useTypescript));
    RunIsRunAll(RunFn(st2, ViteCreateCommand(template, useTypescript)), ["bun", "install"]);
    RunAllAppend(st2, [ViteCreateCommand(template, useTypescript)], [["bun", "install"]]);
    o := NpmUtils.UpdatePackageJson(h, c, client, map["scripts" := Obj(ViteBunScripts())], None);
    if o.Fail? {
      return;
    }
    h.ChDir(appDir);
  }

  // ---------------------------------------------------------------------
  // setup_tailwind_bun

  function PluginAdds(plugins: seq<string>): (cmds: seq<seq<string>>)
    ensures |cmds| == |plugins|
    ensures forall i :: 0 <= i < |plugins| ==> cmds[i] == ["bun", "add", "-d", "@tailwindcss/" + plugins[i]]
  {
    if plugins == [] then [] else [["bun", "add", "-d", "@tailwindcss/" + plugins[0]]] + PluginAdds(plugins[1..])
  }

  lemma {:induction false} PluginAddsAppend(a: seq<string>, b: seq<string>)
    ensures PluginAdds(a + b) == PluginAdds(a) + PluginAdds(b)
    decreases |a|
  {
    if a == [] {
      assert a + b == b;
    } else {
      assert (a + b)[0] == a[0];
      assert (a + b)[1..] == a[1..] + b;
      PluginAddsAppend(a[1..], b);
      AppendAssoc([["bun", "add", "-d", "@tailwindcss/" + a[0]]], PluginAdds(a[1..]), PluginAdds(b));
    }
  }

  /** The commands `setup_tailwind_bun` issues: the base install first, one
      add per plugin in list order, the fonts package when asked for, and
      the init last. */
  function TailwindBunCommands(plugins: seq<string>, fonts: bool): (cmds: seq<seq<string>>)
    ensures |cmds| == |plugins| + (if fonts then 3 else 2)
    ensures cmds[0] == ["bun", "add", "-d", "tailwindcss", "postcss", "autoprefixer"]
    ensures forall i :: 0 <= i < |plugins| ==> cmds[1 + i] == ["bun", "add", "-d", "@tailwindcss/" + plugins[i]]
    ensures fonts ==> cmds[|plugins| + 1] == ["bun", "add", "@vercel/fonts"]
    ensures cmds[|cmds| - 1] == ["bunx", "tailwindcss", "init", "-p"]
  {
    [["bun", "add", "-d", "tailwindcss", "postcss", "autoprefixer"]]
    + PluginAdds(plugins)
    + (if fonts then [["bun", "add", "@vercel/fonts"]] else [])
    + [["bunx", "tailwindcss", "init", "-p"]]
  }

  /** `setup_tailwind_bun(client_dir, plugins, fonts)`: the commands run in
      the client directory, which is left for its parent afterwards. */
  function SetupTailwindBunFn(st: State, clientDir: Path, plugins: seq<string>, fonts: bool): State {
    ChDirFn(RunAllFn(ChDirFn(st, clientDir), TailwindBunCommands(plugins, fonts)), Dirname(clientDir))
  }

  method SetupTailwindBun(h: Host, clientDir: Path, plugins: seq<string>, fonts: bool)
    modifies h
    ensures h.Snap() == SetupTailwindBunFn(old(h.Snap()), clientDir, plugins, fonts)
  {
    h.ChDir(clientDir);
    ghost var st1 := h.Snap();
    var base := ["bun", "add", "-d", "tailwindcss", "postcss", "autoprefixer"];
    h.Run(base);
    RunIsRunAll(st1, base);
    var i := 0;
    while i < |plugins|
      invariant 0 <= i <= |plugins|
      invariant h.Snap() == RunAllFn(st1, [base] + PluginAdds(plugins[..i]))
    {
      ghost var before := h.Snap();
      var cmd := ["bun", "add", "-d", "@tailwindcss/" + plugins[i]];
      h.Run(cmd);
      RunIsRunAll(before, cmd);
      RunAllAppend(st1, [base] + PluginAdds(plugins[..i]), [cmd]);
      PluginAddsAppend(plugins[..i], [plugins[i]]);
      assert plugins[..i + 1] == plugins[..i] + [plugins[i]];
      assert PluginAdds([plugins[i]]) == [cmd];
      AppendAssoc([base], PluginAdds(plugins[..i]), [cmd]);
      i := i + 1;
    }
    assert plugins[..i] == plugins;
    ghost var mid := h.Snap();
    var tail := (if fonts then [["bun", "add", "@vercel/fonts"]] else []) + [["bunx", "tailwindcss", "init", "-p"]];
    if fonts {
      h.Run(["bun", "add", "@vercel/fonts"]);
      RunIsRunAll(mid, ["bun", "add", "@vercel/fonts"]);
    }
    ghost var last := h.Snap();
    h.Run(["bunx", "tailwindcss", "init", "-p"]);
    RunIsRunAll(last, ["bunx", "tailwindcss", "init", "-p"]);
    if fonts {
      RunAllAppend(mid, [["bun", "add", "@vercel/fonts"]], [["bunx", "tailwindcss", "init", "-p"]]);
    }
    RunAllAppend(st1, [base] + PluginAdds(plugins), tail);
    AppendAssoc([base] + PluginAdds(plugins), if fonts then [["bun", "add", "@vercel/fonts"]] else [], [["bunx", "tailwindcss", "init", "-p"]]);
    h.ChDir(Dirname(clientDir));
  }
}
