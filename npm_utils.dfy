/** The shared npm helpers: the platform family, the "is this package a
    dependency" check, and the one-level merge of an update dictionary into
    package.json. */
module NpmUtils {
  import opened Base
  import opened Json
  import opened Fs
  import Text

  // ---------------------------------------------------------------------
  // Platform

  /** The `sys.platform` prefix that names a family. */
  function FamilyPrefix(family: string): string {
    if family == "windows" then "win" else if family == "mac" then "darwin" else "linux"
  }

  /** `check_system()`: "windows", "mac" or "linux" after the prefix of
      `sys.platform`, and no value for any other platform. */
  function CheckSystem(platform: string): (r: Option<string>)
    ensures r.Some? ==> r.value in {"windows", "mac", "linux"} && StartsWith(platform, FamilyPrefix(r.value))
    ensures r.None? <==> !StartsWith(platform, "win") && !StartsWith(platform, "darwin") && !StartsWith(platform, "linux")
  {
    if StartsWith(platform, "win") then Some("windows")
    else if StartsWith(platform, "darwin") then Some("mac")
    else if StartsWith(platform, "linux") then Some("linux")
    else None
  }

  /** The three prefixes exclude each other, so the family names the
      platform's prefix exactly. */
  lemma CheckSystemExact(platform: string, family: string)
    requires family in {"windows", "mac", "linux"}
    ensures CheckSystem(platform) == Some(family) <==> StartsWith(platform, FamilyPrefix(family))
  {
    if StartsWith(platform, FamilyPrefix(family)) {
      var p := FamilyPrefix(family);
      assert platform[0] == p[0] by { assert platform[..|p|][0] == p[0]; }
      if family != "windows" { assert !StartsWith(platform, "win") by { assert "win"[0] != p[0]; } }
      if family == "linux" { assert !StartsWith(platform, "darwin") by { assert "darwin"[0] != p[0]; } }
    }
  }

  /** The npm executable: "npm.cmd" exactly on Windows. */
  function Npm(platform: string): (r: string)
    ensures r == "npm.cmd" <==> StartsWith(platform, "win")
    ensures r == "npm" <==> !StartsWith(platform, "win")
  {
    if CheckSystem(platform) == Some("windows") then "npm.cmd" else "npm"
  }

  /** The npx executable: "npx.cmd" exactly on Windows. */
  function Npx(platform: string): (r: string)
    ensures r == "npx.cmd" <==> StartsWith(platform, "win")
    ensures r == "npx" <==> !StartsWith(platform, "win")
  {
    if CheckSystem(platform) == Some("windows") then "npx.cmd" else "npx"
  }

  // ---------------------------------------------------------------------
  // Dependency check

  /** Python's `name in container`: a key of a dict, an element of a list,
      a substring of a string; other values raise TypeError. */
  function Contains(container: Value, name: string): (r: Result<bool>)
    ensures container.Obj? ==> r == Ok(name in container.fields)
    ensures container.Arr? ==> r == Ok(Str(name) in container.items)
    ensures container.Str? ==> r == Ok(Text.Occurs(container.s, name))
    ensures r.Err? <==> container.Null? || container.Bool? || container.Num?
  {
    match container
    case Obj(m) => Ok(name in m)
    case Arr(xs) => Ok(Str(name) in xs)
    case Str(s) => Ok(Text.IsSubstring(name, s))
    case _ => Err(TypeError("argument is not iterable"))
  }

  /** The keys of a dependency section, empty when it is absent. */
  function SectionKeys(m: map<string, Value>, section: string): set<string> {
    if section in m && m[section].Obj? then m[section].fields.Keys else {}
  }

  /** A section that is absent or an object. */
  predicate WellFormedSection(m: map<string, Value>, section: string) {
    section in m ==> m[section].Obj?
  }

  /** `check_npm_package(name)` run in the working directory of `st`. Both
      sections are looked at before the answer is formed, as the list
      comprehension inside `any` does. */
  function CheckPackageFn(st: State, c: Codec, name: string): (r: Result<bool>)
    ensures !Exists(st, "package.json") ==> r == Ok(false)
  {
    if !Exists(st, "package.json") then Ok(false)
    else match ReadJsonFn(st, c, "package.json")
      case Err(e) => Err(e)
      case Ok(v) =>
        if !v.Obj? then Err(AttributeError("get"))
        else
          var a := Contains(Get(v.fields, "dependencies", Obj(map[])), name);
          var b := Contains(Get(v.fields, "devDependencies", Obj(map[])), name);
          if a.Err? then Err(a.error)
          else if b.Err? then Err(b.error)
          else Ok(a.value || b.value)
  }

  /** With a parsed package.json whose sections are objects (or absent), the
      check answers whether `name` is a key of either section. */
  lemma CheckPackageMeaning(st: State, c: Codec, name: string, m: map<string, Value>)
    requires ReadJsonFn(st, c, "package.json") == Ok(Obj(m))
    requires WellFormedSection(m, "dependencies") && WellFormedSection(m, "devDependencies")
    ensures CheckPackageFn(st, c, name)
         == Ok(name in SectionKeys(m, "dependencies") || name in SectionKeys(m, "devDependencies"))
  {
    assert Exists(st, "package.json");
  }

  /** `check_npm_package` read from a live process. */
  method CheckNpmPackage(h: Host, c: Codec, name: string) returns (r: Result<bool>)
    ensures r == CheckPackageFn(h.Snap(), c, name)
  {
    var p := Join(h.cwd, "package.json");
    if !(p in h.files || p in h.dirs) {
      return Ok(false);
    }
    var v := h.ReadJson(c, "package.json");
    if v.Err? {
      return Err(v.error);
    }
    if !v.value.Obj? {
      return Err(AttributeError("get"));
    }
    var deps := Get(v.value.fields, "dependencies", Obj(map[]));
    var dev := Get(v.value.fields, "devDependencies", Obj(map[]));
    var a := Contains(deps, name);
    var b := Contains(dev, name);
    if a.Err? {
      r := Err(a.error);
    } else if b.Err? {
      r := Err(b.error);
    } else {
      r := Ok(a.value || b.value);
    }
  }

  // ---------------------------------------------------------------------
  // One-level merge

  /** `package[key].update(v)` would be called on something that is not a
      dict: Python raises AttributeError. */
  predicate Clash(pkg: map<string, Value>, key: string, v: Value) {
    v.Obj? && key in pkg && !pkg[key].Obj?
  }

  /** The value `key` holds after its update: entry-wise update of an
      existing dict, assignment otherwise. */
  function Merged(pkg: map<string, Value>, key: string, v: Value): Value {
    if v.Obj? && key in pkg && pkg[key].Obj? then Obj(pkg[key].fields + v.fields) else v
  }

  /** The updates merged into a given set of their keys. */
  function Partial(pkg: map<string, Value>, upd: map<string, Value>, done: set<string>): map<string, Value>
    requires done <= upd.Keys
  {
    map k | k in pkg.Keys + done :: if k in done then Merged(pkg, k, upd[k]) else pkg[k]
  }

  /** The loop of `update_package_json` on a dict `pkg`. Keys of `updates`
      are distinct, so the order they are visited in does not change the
      result; a clash anywhere raises AttributeError and nothing is
      written. */
  function MergeObj(pkg: map<string, Value>, upd: map<string, Value>): (r: Result<map<string, Value>>)
    ensures r.Err? <==> exists k :: k in upd && Clash(pkg, k, upd[k])
    ensures r.Ok? ==> r.value.Keys == pkg.Keys + upd.Keys
    ensures r.Ok? ==> forall k :: k in pkg && k !in upd ==> r.value[k] == pkg[k]
    ensures r.Ok? ==> forall k :: k in upd && (!upd[k].Obj? || k !in pkg) ==> r.value[k] == upd[k]
    ensures r.Ok? ==> forall k :: k in upd && upd[k].Obj? && k in pkg ==> r.value[k].Obj? && r.value[k].fields.Keys == pkg[k].fields.Keys + upd[k].fields.Keys
  {
    if exists k :: k in upd && Clash(pkg, k, upd[k]) then Err(AttributeError("update"))
    else Ok(Partial(pkg, upd, upd.Keys))
  }

  /** Inside a dict entry the update keys win and every other inner key
      survives; the values under those inner keys are replaced whole, so
      the merge goes one level deep and no further. */
  lemma MergeNested(pkg: map<string, Value>, upd: map<string, Value>, key: string, j: string)
    requires MergeObj(pkg, upd).Ok?
    requires key in upd && upd[key].Obj? && key in pkg
    ensures var inner := MergeObj(pkg, upd).value[key].fields;
      j in inner <==> j in pkg[key].fields || j in upd[key].fields
    ensures j in upd[key].fields ==> MergeObj(pkg, upd).value[key].fields[j] == upd[key].fields[j]
    ensures j in pkg[key].fields && j !in upd[key].fields ==> MergeObj(pkg, upd).value[key].fields[j] == pkg[key].fields[j]
  {
    assert !Clash(pkg, key, upd[key]);
  }

  /** The scripts a package already has, none when the entry is absent or
      not a dict. */
  function Scripts(m: map<string, Value>): map<string, Value> {
    if "scripts" in m && m["scripts"].Obj? then m["scripts"].fields else map[]
  }

  /** Merging `{"scripts": s}`, the shape every script set has: it succeeds
      unless `scripts` holds a non-dict, adds or overrides exactly the keys
      of `s` inside `scripts`, and leaves every other key alone. */
  lemma MergeScripts(m: map<string, Value>, s: map<string, Value>)
    ensures MergeObj(m, map["scripts" := Obj(s)]).Ok? <==> WellFormedSection(m, "scripts")
    ensures MergeObj(m, map["scripts" := Obj(s)]).Ok? ==>
      var r := MergeObj(m, map["scripts" := Obj(s)]).value;
      r.Keys == m.Keys + {"scripts"}
      && (forall k :: k in m && k != "scripts" ==> r[k] == m[k])
      && r["scripts"] == Obj(Scripts(m) + s)
  {
    var upd := map["scripts" := Obj(s)];
    if WellFormedSection(m, "scripts") {
      assert !Clash(m, "scripts", upd["scripts"]);
      assert forall k :: k in upd ==> k == "scripts";
      var r := MergeObj(m, upd).value;
      if "scripts" !in m {
        assert r["scripts"] == Obj(s);
        assert Scripts(m) + s == s;
      }
    } else {
      assert Clash(m, "scripts", upd["scripts"]);
    }
  }

  /** Applying the same updates again changes nothing. */
  lemma MergeIdempotent(pkg: map<string, Value>, upd: map<string, Value>)
    requires MergeObj(pkg, upd).Ok?
    ensures MergeObj(MergeObj(pkg, upd).value, upd) == MergeObj(pkg, upd)
  {
    var m := MergeObj(pkg, upd).value;
    forall k | k in upd ensures !Clash(m, k, upd[k]) && Merged(m, k, upd[k]) == m[k] {
      if upd[k].Obj? {
        if k in pkg {
          assert !Clash(pkg, k, upd[k]);
          var c := pkg[k].fields;
          var u := upd[k].fields;
          assert m[k] == Obj(c + u);
          assert (c + u) + u == c + u;
        } else {
          assert m[k] == upd[k];
          assert upd[k].fields + upd[k].fields == upd[k].fields;
        }
      }
    }
    assert !exists k :: k in upd && Clash(m, k, upd[k]);
    var m2 := Partial(m, upd, upd.Keys);
    assert m2.Keys == m.Keys;
    assert forall k :: k in m2 ==> m2[k] == m[k];
    assert m2 == m;
  }

  /** `update_package_json`'s loop, one key at a time, on the loaded dict. */
  method MergeUpdates(pkg: map<string, Value>, upd: map<string, Value>) returns (r: Result<map<string, Value>>)
    ensures r == MergeObj(pkg, upd)
  {
    var cur := pkg;
    var todo := upd.Keys;
    while todo != {}
      invariant todo <= upd.Keys
      invariant forall k :: k in upd && k !in todo ==> !Clash(pkg, k, upd[k])
      invariant cur == Partial(pkg, upd, upd.Keys - todo)
      decreases todo
    {
      var k :| k in todo;
      var v := upd[k];
      if v.Obj? && k in cur {
        if !cur[k].Obj? {
          return Err(AttributeError("update"));
        }
        cur := cur[k := Obj(cur[k].fields + v.fields)];
      } else {
        cur := cur[k := v];
      }
      todo := todo - {k};
    }
    assert upd.Keys - todo == upd.Keys;
    r := Ok(cur);
  }

  /** The merge applied to the loaded JSON value: with no updates the
      value is written back as loaded, and a non-dict raises TypeError as
      soon as the first key is looked up or assigned. */
  function MergeValue(v: Value, upd: map<string, Value>): (r: Result<Value>)
    ensures upd == map[] ==> r == Ok(v)
    ensures upd != map[] && !v.Obj? ==> r.Err? && r.error.TypeError?
    ensures v.Obj? ==> (r.Ok? <==> MergeObj(v.fields, upd).Ok?)
    ensures v.Obj? && r.Ok? ==> r.value == Obj(MergeObj(v.fields, upd).value)
  {
    if upd == map[] then Ok(v)
    else if !v.Obj? then Err(TypeError("package.json is not an object"))
    else match MergeObj(v.fields, upd)
      case Err(e) => Err(e)
      case Ok(m) => Ok(Obj(m))
  }

  // ---------------------------------------------------------------------
  // update_package_json

  /** `project_dir/subdir` when a non-empty subdirectory is given, else
      `project_dir`. */
  function TargetDir(projectDir: Path, subdir: Option<Path>): Path {
    if subdir.Some? && subdir.value != [] then Join(projectDir, subdir.value) else projectDir
  }

  function PackagePath(projectDir: Path, subdir: Option<Path>): Path {
    Join(TargetDir(projectDir, subdir), "package.json")
  }

  /** `update_package_json(project_dir, updates, subdir)`. */
  function UpdatePackageJsonFn(st: State, c: Codec, projectDir: Path, upd: map<string, Value>, subdir: Option<Path>): (r: (State, Outcome))
    ensures !Exists(st, PackagePath(projectDir, subdir)) ==> r == (st, Pass)
    ensures r.1.Fail? ==> r.0 == st
    ensures r.0.cwd == st.cwd && r.0.dirs == st.dirs
    ensures r.0.log == st.log || r.0.log == st.log + [Wrote(Resolve(st, PackagePath(projectDir, subdir)))]
  {
    var p := PackagePath(projectDir, subdir);
    if !Exists(st, p) then (st, Pass)
    else match ReadJsonFn(st, c, p)
      case Err(e) => (st, Fail(e))
      case Ok(v) =>
        match MergeValue(v, upd)
        case Err(e) => (st, Fail(e))
        case Ok(v2) => WriteJsonFn(st, c, p, v2)
  }

  /** A successful update writes package.json once, with the merged value,
      and touches no other file. */
  lemma UpdatePackageJsonWrites(st: State, c: Codec, projectDir: Path, upd: map<string, Value>, subdir: Option<Path>, m: map<string, Value>)
    requires Valid(st) && ReadJsonFn(st, c, PackagePath(projectDir, subdir)) == Ok(Obj(m))
    requires upd != map[] && MergeObj(m, upd).Ok?
    ensures var r := UpdatePackageJsonFn(st, c, projectDir, upd, subdir);
      var a := Resolve(st, PackagePath(projectDir, subdir));
      r.1 == Pass && r.0.files == st.files[a := c.dump(Obj(MergeObj(m, upd).value))]
      && r.0.log == st.log + [Wrote(a)] && r.0.cwd == st.cwd && r.0.dirs == st.dirs
  {
  }

  method UpdatePackageJson(h: Host, c: Codec, projectDir: Path, upd: map<string, Value>, subdir: Option<Path>) returns (o: Outcome)
    modifies h
    ensures (h.Snap(), o) == UpdatePackageJsonFn(old(h.Snap()), c, projectDir, upd, subdir)
  {
    var p := PackagePath(projectDir, subdir);
    var a := Join(h.cwd, p);
    if !(a in h.files || a in h.dirs) {
      return Pass;
    }
    var v := h.ReadJson(c, p);
    if v.Err? {
      return Fail(v.error);
    }
    var merged: Result<Value>;
    if upd == map[] {
      merged := Ok(v.value);
    } else if !v.value.Obj? {
      merged := Err(TypeError("package.json is not an object"));
    } else {
      var m := MergeUpdates(v.value.fields, upd);
      merged := if m.Ok? then Ok(Obj(m.value)) else Err(m.error);
    }
    if merged.Err? {
      return Fail(merged.error);
    }
    o := h.WriteJson(c, p, merged.value);
  }
}
