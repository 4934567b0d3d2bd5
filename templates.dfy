/** What the generators do with a template directory: each YAML template
    parses to one record or a list of records (a file name and a content),
    each record becomes a file written through `create_file`, and the
    Tailwind config is patched after it is written. A dispatcher turns the
    listing of a template directory into a sequence of actions; the
    actions are then carried out in order and the first error stops the
    run, as an exception does in the generators. */
module Templates {
  import opened Base
  import opened Fs
  import opened Text
  import TailwindSrc

  datatype Record = Record(filename: string, content: string)

  /** A parsed YAML template: a mapping or a list of mappings. */
  datatype Doc = One(record: Record) | Many(records: seq<Record>)

  /** A directory entry of the template directory, with its parsed body. */
  datatype Entry = Entry(name: string, doc: Doc)

  datatype Action =
    | Create(path: Path, content: string)
    | PatchConfig(path: Path, plugins: seq<string>, fonts: bool)
    | Raise(error: Error)

  predicate IsYaml(e: Entry) {
    EndsWith(e.name, ".yaml")
  }

  // ---------------------------------------------------------------------
  // From records to actions

  /** `templates['filename']`: only a mapping can be subscripted by a
      key; a list raises TypeError. */
  function RecordOf(d: Doc): (r: Result<Record>)
    ensures r.Ok? <==> d.One?
    ensures d.One? ==> r.value == d.record
    ensures d.Many? ==> r.error.TypeError?
  {
    match d
    case One(rec) => Ok(rec)
    case Many(_) => Err(TypeError("list indices must be integers or slices, not str"))
  }

  /** One verbatim write per record, in list order. */
  function Verbatim(rs: seq<Record>): (acts: seq<Action>)
    ensures |acts| == |rs|
    ensures forall i :: 0 <= i < |rs| ==> acts[i] == Create(rs[i].filename, rs[i].content)
  {
    if rs == [] then [] else [Create(rs[0].filename, rs[0].content)] + Verbatim(rs[1..])
  }

  /** `for template in templates: create_file(template['filename'],
      template['content'])`. Iterating a mapping yields its keys, and a
      key cannot be subscripted by a string: TypeError. */
  function CreateEach(d: Doc): (acts: seq<Action>)
    ensures d.Many? ==> acts == Verbatim(d.records)
    ensures d.One? ==> acts == [Raise(TypeError("string indices must be integers"))]
  {
    match d
    case Many(rs) => Verbatim(rs)
    case One(_) => [Raise(TypeError("string indices must be integers"))]
  }

  /** `create_file(templates['filename'], templates['content'])`. */
  function CreateSingle(d: Doc): (acts: seq<Action>)
    ensures d.One? ==> acts == [Create(d.record.filename, d.record.content)]
    ensures d.Many? ==> |acts| == 1 && acts[0].Raise? && acts[0].error.TypeError?
  {
    match RecordOf(d)
    case Ok(rec) => [Create(rec.filename, rec.content)]
    case Err(e) => [Raise(e)]
  }

  /** A record whose file name and then content are formatted before the
      write; the first formatting error is raised. */
  function FormatRecord(rec: Record, nameCtx: map<string, string>, contentCtx: map<string, string>): (a: Action)
    ensures a.Create? <==> Format(rec.filename, nameCtx).Ok? && Format(rec.content, contentCtx).Ok?
    ensures a.Create? ==> a == Create(Format(rec.filename, nameCtx).value, Format(rec.content, contentCtx).value)
    ensures Format(rec.filename, nameCtx).Err? ==> a == Raise(Format(rec.filename, nameCtx).error)
  {
    match Format(rec.filename, nameCtx)
    case Err(e) => Raise(e)
    case Ok(f) =>
      match Format(rec.content, contentCtx)
      case Err(e) => Raise(e)
      case Ok(t) => Create(f, t)
  }

  /** `FormatRecord` applied to each record of a list, in order. */
  function FormatEach(d: Doc, nameCtx: map<string, string>, contentCtx: map<string, string>): (acts: seq<Action>)
    ensures d.Many? ==> |acts| == |d.records| && forall i :: 0 <= i < |acts| ==> acts[i] == FormatRecord(d.records[i], nameCtx, contentCtx)
    ensures d.One? ==> acts == [Raise(TypeError("string indices must be integers"))]
  {
    match d
    case One(_) => [Raise(TypeError("string indices must be integers"))]
    case Many(rs) => FormatAll(rs, nameCtx, contentCtx)
  }

  function FormatAll(rs: seq<Record>, nameCtx: map<string, string>, contentCtx: map<string, string>): (acts: seq<Action>)
    ensures |acts| == |rs| && forall i :: 0 <= i < |rs| ==> acts[i] == FormatRecord(rs[i], nameCtx, contentCtx)
  {
    if rs == [] then [] else [FormatRecord(rs[0], nameCtx, contentCtx)] + FormatAll(rs[1..], nameCtx, contentCtx)
  }

  /** A field with a brace-free text on either side formats to the
      context's value in its place. */
  lemma FormatBetween(p: string, name: string, q: string, ctx: map<string, string>)
    requires BraceFree(p) && BraceFree(name) && BraceFree(q) && name in ctx
    ensures Format(p + ("{" + name + "}") + q, ctx) == Ok(p + ctx[name] + q)
  {
    var f := "{" + name + "}";
    assert p + f + q == p + (f + q);
    assert f + q == "{" + name + "}" + q;
    FormatPlainPrefix(p, f + q, ctx);
    FormatField(name, q, ctx);
    FormatPlain(q, ctx);
    assert p + (ctx[name] + q) == p + ctx[name] + q;
  }

  /** `templates['filename']` and `templates['content']` of a single
      mapping, both formatted. */
  function FormatSingle(d: Doc, nameCtx: map<string, string>, contentCtx: map<string, string>): (acts: seq<Action>)
    ensures d.One? ==> acts == [FormatRecord(d.record, nameCtx, contentCtx)]
    ensures d.Many? ==> |acts| == 1 && acts[0].Raise? && acts[0].error.TypeError?
  {
    match RecordOf(d)
    case Ok(rec) => [FormatRecord(rec, nameCtx, contentCtx)]
    case Err(e) => [Raise(e)]
  }

  /** A record written under its own name with only its content
      formatted. */
  function FormatContent(rec: Record, ctx: map<string, string>): (a: Action)
    ensures a.Create? <==> Format(rec.content, ctx).Ok?
    ensures a.Create? ==> a == Create(rec.filename, Format(rec.content, ctx).value)
  {
    match Format(rec.content, ctx)
    case Err(e) => Raise(e)
    case Ok(t) => Create(rec.filename, t)
  }

  /** `FormatContent` applied to each record of a list, in order. */
  function FormatContents(d: Doc, ctx: map<string, string>): (acts: seq<Action>)
    ensures d.Many? ==> |acts| == |d.records| && forall i :: 0 <= i < |acts| ==> acts[i] == FormatContent(d.records[i], ctx)
    ensures d.One? ==> acts == [Raise(TypeError("string indices must be integers"))]
  {
    match d
    case One(_) => [Raise(TypeError("string indices must be integers"))]
    case Many(rs) => FormatContentAll(rs, ctx)
  }

  function FormatContentAll(rs: seq<Record>, ctx: map<string, string>): (acts: seq<Action>)
    ensures |acts| == |rs| && forall i :: 0 <= i < |rs| ==> acts[i] == FormatContent(rs[i], ctx)
  {
    if rs == [] then [] else [FormatContent(rs[0], ctx)] + FormatContentAll(rs[1..], ctx)
  }

  /** Two fields between brace-free texts format to the two values. */
  lemma FormatTwo(p: string, a: string, m: string, b: string, q: string, ctx: map<string, string>)
    requires BraceFree(p) && BraceFree(a) && BraceFree(m) && BraceFree(b) && BraceFree(q)
    requires a in ctx && b in ctx
    ensures Format(p + ("{" + a + "}") + (m + ("{" + b + "}") + q), ctx) == Ok(p + ctx[a] + (m + ctx[b] + q))
  {
    var tail := m + ("{" + b + "}") + q;
    FormatBetween(m, b, q, ctx);
    var f := "{" + a + "}";
    AppendAssoc(p, f, tail);
    FormatPlainPrefix(p, f + tail, ctx);
    FormatField(a, tail, ctx);
    AppendAssoc(p, ctx[a], m + ctx[b] + q);
  }

  // ---------------------------------------------------------------------
  // create_file

  /** `create_file(filename, content)` as written: `os.makedirs` on the
      file's directory, then the write. */
  function CreateFileAsWritten(st: State, filename: Path, content: string): (r: (State, Outcome)) {
    var (st1, o1) := MakeDirsFn(st, Dirname(filename));
    if o1.Fail? then (st1, o1) else WriteFn(st1, filename, content)
  }

  /** A file name without a directory part makes `os.makedirs('')` raise
      FileNotFoundError before anything is written. */
  lemma CreateFileBareNameRaises(st: State, filename: Path, content: string)
    requires forall k :: 0 <= k < |filename| ==> filename[k] != '/'
    ensures CreateFileAsWritten(st, filename, content) == (st, Fail(FileNotFound([])))
  {
    DirnameOfBareName(filename);
  }

  /** The corrected `create_file`: the directory is created only when the
      name has one. */
  function CreateFileFn(st: State, filename: Path, content: string): (r: (State, Outcome))
    ensures r.0.cwd == st.cwd && r.0.dirs >= st.dirs
    ensures r.1.Pass? ==> r.0.log == st.log + [Wrote(Resolve(st, filename))]
    ensures r.1.Fail? ==> r.0.files == st.files && r.0.log == st.log
  {
    if Dirname(filename) == [] then WriteFn(st, filename, content)
    else CreateFileAsWritten(st, filename, content)
  }

  /** The correction only touches bare names: for a name with a directory
      part, the corrected `create_file` is the code as written. */
  lemma CreateFileAgrees(st: State, filename: Path, content: string)
    requires Dirname(filename) != []
    ensures CreateFileFn(st, filename, content) == CreateFileAsWritten(st, filename, content)
  {
  }

  /** A successful `create_file` leaves the parent directory in place and
      the file holding exactly `content`; no other file changes. A bare
      name is written whenever it is not a directory. */
  lemma CreateFileWrites(st: State, filename: Path, content: string)
    requires Valid(st)
    ensures var r := CreateFileFn(st, filename, content);
      (r.1.Pass? ==>
        r.0.files == st.files[Resolve(st, filename) := content]
        && (Dirname(filename) != [] ==> Resolve(st, Dirname(filename)) in r.0.dirs)
        && Valid(r.0))
      && (Dirname(filename) == [] && Resolve(st, filename) !in st.dirs ==> r.1.Pass?)
  {
    var r := CreateFileFn(st, filename, content);
    if Dirname(filename) != [] {
      var (st1, o1) := MakeDirsFn(st, Dirname(filename));
      if o1.Pass? {
        MakeDirsKeepsValid(st, Dirname(filename));
        WriteKeepsValid(st1, filename, content);
      }
    } else {
      WriteKeepsValid(st, filename, content);
    }
  }

  method CreateFile(h: Host, filename: Path, content: string) returns (o: Outcome)
    modifies h
    ensures (h.Snap(), o) == CreateFileFn(old(h.Snap()), filename, content)
  {
    var dir := Dirname(filename);
    if dir != [] {
      o := h.MakeDirs(dir);
      if o.Fail? {
        return;
      }
    }
    o := h.Write(filename, content);
  }

  // ---------------------------------------------------------------------
  // Carrying out the actions

  /** One planned action. A write goes through the corrected
      `create_file`, which differs from the code as written only on a
      bare name (`CreateFileAgrees`). */
  function ExecFn(st: State, a: Action): (r: (State, Outcome))
    ensures r.0.cwd == st.cwd && r.0.dirs >= st.dirs
  {
    match a
    case Create(p, t) => CreateFileFn(st, p, t)
    case PatchConfig(p, plugins, fonts) => TailwindSrc.UpdateTailwindConfigFn(st, p, plugins, fonts)
    case Raise(e) => (st, Fail(e))
  }

  /** The actions in order; the first failure ends the run. */
  function ExecAllFn(st: State, acts: seq<Action>): (r: (State, Outcome))
    ensures r.0.cwd == st.cwd && r.0.dirs >= st.dirs
    decreases |acts|
  {
    if acts == [] then (st, Pass)
    else
      var (st1, o1) := ExecFn(st, acts[0]);
      if o1.Fail? then (st1, o1) else ExecAllFn(st1, acts[1..])
  }

  /** Continue with `b` after a run that passed. */
  function Then(r: (State, Outcome), b: seq<Action>): (State, Outcome) {
    if r.1.Fail? then r else ExecAllFn(r.0, b)
  }

  lemma {:induction false} ExecAllAppend(st: State, a: seq<Action>, b: seq<Action>)
    ensures ExecAllFn(st, a + b) == Then(ExecAllFn(st, a), b)
    decreases |a|
  {
    if a == [] {
      assert a + b == b;
    } else {
      assert (a + b)[0] == a[0];
      assert (a + b)[1..] == a[1..] + b;
      var (st1, o1) := ExecFn(st, a[0]);
      if o1.Pass? {
        ExecAllAppend(st1, a[1..], b);
      }
    }
  }

  /** The file an action writes, resolved in `cwd`. */
  function WriteOf(cwd: Path, a: Action): seq<Event> {
    match a
    case Create(p, _) => [Wrote(Join(cwd, p))]
    case PatchConfig(p, _, _) => [Wrote(Join(cwd, p))]
    case Raise(_) => []
  }

  function WritesOf(cwd: Path, acts: seq<Action>): seq<Event> {
    if acts == [] then [] else WriteOf(cwd, acts[0]) + WritesOf(cwd, acts[1..])
  }

  /** An action that passes writes its one file and is not a Raise. */
  lemma ExecWrites(st: State, a: Action)
    requires ExecFn(st, a).1.Pass?
    ensures ExecFn(st, a).0.log == st.log + WriteOf(st.cwd, a) && !a.Raise?
  {
  }

  /** A run that passes writes exactly the actions' files, in order. */
  lemma {:induction false} ExecAllWrites(st: State, acts: seq<Action>)
    requires ExecAllFn(st, acts).1.Pass?
    ensures ExecAllFn(st, acts).0.log == st.log + WritesOf(st.cwd, acts)
    decreases |acts|
  {
    if acts == [] {
      assert st.log + [] == st.log;
    } else {
      var (st1, o1) := ExecFn(st, acts[0]);
      ExecWrites(st, acts[0]);
      assert ExecAllFn(st, acts) == ExecAllFn(st1, acts[1..]);
      ExecAllWrites(st1, acts[1..]);
      var w, ws := WriteOf(st.cwd, acts[0]), WritesOf(st.cwd, acts[1..]);
      assert WritesOf(st.cwd, acts) == w + ws;
      AppendAssoc(st.log, w, ws);
    }
  }

  /** A run that passes never reached a Raise action. */
  lemma {:induction false} ExecAllPassNoRaise(st: State, acts: seq<Action>)
    requires ExecAllFn(st, acts).1.Pass?
    ensures forall i :: 0 <= i < |acts| ==> !acts[i].Raise?
    decreases |acts|
  {
    if acts != [] {
      var (st1, o1) := ExecFn(st, acts[0]);
      ExecWrites(st, acts[0]);
      ExecAllPassNoRaise(st1, acts[1..]);
      forall i | 0 <= i < |acts| ensures !acts[i].Raise? {
        if i > 0 { assert acts[i] == acts[1..][i - 1]; }
      }
    }
  }

  /** One more action after a prefix that passed. */
  lemma ExecAllStep(st0: State, pre: seq<Action>, a: Action)
    requires ExecAllFn(st0, pre).1.Pass?
    ensures ExecAllFn(st0, pre + [a]) == ExecFn(ExecAllFn(st0, pre).0, a)
  {
    ExecAllAppend(st0, pre, [a]);
    var st := ExecAllFn(st0, pre).0;
    assert [a][1..] == [];
    var (st1, o1) := ExecFn(st, a);
    assert ExecAllFn(st, [a]) == (st1, o1);
  }

  /** A prefix that failed decides the whole run. */
  lemma ExecAllStops(st0: State, pre: seq<Action>, rest: seq<Action>)
    requires ExecAllFn(st0, pre).1.Fail?
    ensures ExecAllFn(st0, pre + rest) == ExecAllFn(st0, pre)
  {
    ExecAllAppend(st0, pre, rest);
  }

  method Exec(h: Host, a: Action) returns (o: Outcome)
    modifies h
    ensures (h.Snap(), o) == ExecFn(old(h.Snap()), a)
  {
    match a
    case Create(p, t) =>
      o := CreateFile(h, p, t);
    case PatchConfig(p, plugins, fonts) =>
      o := TailwindSrc.UpdateTailwindConfig(h, p, plugins, fonts);
    case Raise(e) =>
      o := Fail(e);
  }

  method ExecAll(h: Host, acts: seq<Action>) returns (o: Outcome)
    modifies h
    ensures (h.Snap(), o) == ExecAllFn(old(h.Snap()), acts)
  {
    ghost var st0 := h.Snap();
    var i := 0;
    while i < |acts|
      invariant 0 <= i <= |acts|
      invariant ExecAllFn(st0, acts) == ExecAllFn(h.Snap(), acts[i..])
    {
      ExecAllFrom(h.Snap(), acts, i);
      o := Exec(h, acts[i]);
      if o.Fail? {
        return;
      }
      i := i + 1;
    }
    o := Pass;
  }

  /** A run from action `i` is that action, then the run from `i + 1`. */
  lemma ExecAllFrom(st: State, acts: seq<Action>, i: nat)
    requires i < |acts|
    ensures ExecAllFn(st, acts[i..]) == (var r := ExecFn(st, acts[i]); if r.1.Fail? then r else ExecAllFn(r.0, acts[i + 1..]))
  {
    assert acts[i..][0] == acts[i];
    assert acts[i..][1..] == acts[i + 1..];
  }

  // ---------------------------------------------------------------------
  // A listing

  /** The actions for a whole listing: each entry's, in listing order. */
  function PlanAll(plan: Entry -> seq<Action>, listing: seq<Entry>): (acts: seq<Action>)
    ensures listing == [] ==> acts == []
  {
    if listing == [] then [] else plan(listing[0]) + PlanAll(plan, listing[1..])
  }

  lemma {:induction false} PlanAllAppend(plan: Entry -> seq<Action>, a: seq<Entry>, b: seq<Entry>)
    ensures PlanAll(plan, a + b) == PlanAll(plan, a) + PlanAll(plan, b)
    decreases |a|
  {
    if a == [] {
      assert a + b == b;
    } else {
      assert (a + b)[0] == a[0];
      assert (a + b)[1..] == a[1..] + b;
      PlanAllAppend(plan, a[1..], b);
    }
  }

  /** Entries that plan nothing contribute nothing, wherever they sit. */
  lemma {:induction false} PlanAllSkips(plan: Entry -> seq<Action>, listing: seq<Entry>)
    requires forall i :: 0 <= i < |listing| ==> plan(listing[i]) == []
    ensures PlanAll(plan, listing) == []
    decreases |listing|
  {
    if listing != [] {
      PlanAllSkips(plan, listing[1..]);
    }
  }

  /** The generators' directory loop: each entry's actions are carried
      out before the next entry is read. */
  method RunListing(h: Host, plan: Entry -> seq<Action>, listing: seq<Entry>) returns (o: Outcome)
    modifies h
    ensures (h.Snap(), o) == ExecAllFn(old(h.Snap()), PlanAll(plan, listing))
  {
    ghost var st0 := h.Snap();
    var i := 0;
    while i < |listing|
      invariant 0 <= i <= |listing|
      invariant ExecAllFn(st0, PlanAll(plan, listing)) == ExecAllFn(h.Snap(), PlanAll(plan, listing[i..]))
    {
      var acts := plan(listing[i]);
      PlanAllFrom(plan, listing, i);
      ExecAllAppend(h.Snap(), acts, PlanAll(plan, listing[i + 1..]));
      o := ExecAll(h, acts);
      if o.Fail? {
        return;
      }
      i := i + 1;
    }
    o := Pass;
  }

  /** The plan from entry `i` is that entry's actions, then the plan from
      `i + 1`. */
  lemma PlanAllFrom(plan: Entry -> seq<Action>, listing: seq<Entry>, i: nat)
    requires i < |listing|
    ensures PlanAll(plan, listing[i..]) == plan(listing[i]) + PlanAll(plan, listing[i + 1..])
  {
    assert listing[i..][0] == listing[i];
    assert listing[i..][1..] == listing[i + 1..];
  }

  // ---------------------------------------------------------------------
  // Folder layouts

  /** `os.makedirs(p, exist_ok=True)` for each path in order; the first
      failure ends the run. */
  function MakeAllFn(st: State, ps: seq<Path>): (r: (State, Outcome))
    ensures r.0.files == st.files && r.0.cwd == st.cwd && r.0.log == st.log && r.0.dirs >= st.dirs
    decreases |ps|
  {
    if ps == [] then (st, Pass)
    else
      var (st1, o1) := MakeDirsFn(st, ps[0]);
      if o1.Fail? then (st1, o1) else MakeAllFn(st1, ps[1..])
  }

  lemma {:induction false} MakeAllAppend(st: State, a: seq<Path>, b: seq<Path>)
    ensures MakeAllFn(st, a + b) == (var r := MakeAllFn(st, a); if r.1.Fail? then r else MakeAllFn(r.0, b))
    decreases |a|
  {
    if a == [] {
      assert a + b == b;
    } else {
      assert (a + b)[0] == a[0];
      assert (a + b)[1..] == a[1..] + b;
      var (st1, o1) := MakeDirsFn(st, a[0]);
      if o1.Pass? {
        MakeAllAppend(st1, a[1..], b);
      }
    }
  }

  /** After a run that passes every listed folder is a directory under
      the working directory, and no file was touched. */
  lemma {:induction false} MakeAllCreates(st: State, ps: seq<Path>)
    requires MakeAllFn(st, ps).1.Pass?
    ensures forall i :: 0 <= i < |ps| ==> Join(st.cwd, ps[i]) in MakeAllFn(st, ps).0.dirs
    decreases |ps|
  {
    if ps != [] {
      var (st1, o1) := MakeDirsFn(st, ps[0]);
      MakeAllCreates(st1, ps[1..]);
      assert Join(st.cwd, ps[0]) in st1.dirs;
      forall i | 0 <= i < |ps| ensures Join(st.cwd, ps[i]) in MakeAllFn(st, ps).0.dirs {
        if i > 0 { assert ps[i] == ps[1..][i - 1]; }
      }
    }
  }

  /** From an absolute working directory, making the app directory and
      then the folders inside it leaves the log as it was and the
      working directory in the app directory. */
  lemma FoldersInApp(st: State, name: Path, folders: seq<Path>)
    requires StartsWith(st.cwd, "/") && MakeDirsFn(st, name).1.Pass?
    ensures var appDir := Resolve(st, name);
      var made := MakeAllFn(ChDirFn(MakeDirsFn(st, name).0, appDir), folders);
      made.0.cwd == appDir && made.0.log == st.log
      && (made.1.Pass? ==> forall p :: p in folders ==> Join(appDir, p) in made.0.dirs)
  {
    var appDir := Resolve(st, name);
    var st2 := ChDirFn(MakeDirsFn(st, name).0, appDir);
    ChDirAbsolute(MakeDirsFn(st, name).0, appDir);
    if MakeAllFn(st2, folders).1.Pass? {
      MakeAllMembers(st2, folders);
    }
  }

  /** `MakeAllCreates` stated by membership: every listed folder exists
      under the working directory, which is kept, and the log is kept. */
  lemma MakeAllMembers(st: State, ps: seq<Path>)
    requires MakeAllFn(st, ps).1.Pass?
    ensures forall p :: p in ps ==> Join(st.cwd, p) in MakeAllFn(st, ps).0.dirs
    ensures MakeAllFn(st, ps).0.log == st.log && MakeAllFn(st, ps).0.cwd == st.cwd
  {
    MakeAllCreates(st, ps);
    forall p | p in ps ensures Join(st.cwd, p) in MakeAllFn(st, ps).0.dirs {
      var i :| 0 <= i < |ps| && ps[i] == p;
    }
  }

  /** Creating the same folders again changes nothing. */
  lemma {:induction false} MakeAllIdempotent(st: State, ps: seq<Path>)
    requires MakeAllFn(st, ps).1.Pass?
    ensures MakeAllFn(MakeAllFn(st, ps).0, ps).1.Pass?
    ensures MakeAllFn(MakeAllFn(st, ps).0, ps).0 == MakeAllFn(st, ps).0
  {
    var fin := MakeAllFn(st, ps).0;
    MakeAllCreates(st, ps);
    MakeAllRepeat(st, fin, ps);
  }

  /** Folders whose chains already exist in `fin`, with no file in the
      way, are created again without change. */
  lemma {:induction false} MakeAllRepeat(st: State, fin: State, ps: seq<Path>)
    requires MakeAllFn(st, ps).1.Pass? && MakeAllFn(st, ps).0 == fin
    ensures MakeAllFn(fin, ps) == (fin, Pass)
    decreases |ps|
  {
    if ps != [] {
      var (st1, o1) := MakeDirsFn(st, ps[0]);
      MakeAllRepeat(st1, fin, ps[1..]);
      var a := Resolve(fin, ps[0]);
      assert a == Resolve(st, ps[0]);
      assert Ancestors(a) <= st1.dirs <= fin.dirs;
      assert fin.files == st.files;
      assert MakeDirsFn(fin, ps[0]) == (fin.(dirs := fin.dirs + Ancestors(a)), Pass);
      assert fin.dirs + Ancestors(a) == fin.dirs;
      assert fin.(dirs := fin.dirs) == fin;
    }
  }

  method MakeAll(h: Host, ps: seq<Path>) returns (o: Outcome)
    modifies h
    ensures (h.Snap(), o) == MakeAllFn(old(h.Snap()), ps)
  {
    ghost var st0 := h.Snap();
    var i := 0;
    while i < |ps|
      invariant 0 <= i <= |ps|
      invariant MakeAllFn(st0, ps) == MakeAllFn(h.Snap(), ps[i..])
    {
      MakeAllFrom(h.Snap(), ps, i);
      o := h.MakeDirs(ps[i]);
      if o.Fail? {
        return;
      }
      i := i + 1;
    }
    o := Pass;
  }

  /** The folders from `i` are the one at `i`, then those from `i + 1`. */
  lemma MakeAllFrom(st: State, ps: seq<Path>, i: nat)
    requires i < |ps|
    ensures MakeAllFn(st, ps[i..]) == (var r := MakeDirsFn(st, ps[i]); if r.1.Fail? then r else MakeAllFn(r.0, ps[i + 1..]))
  {
    assert ps[i..][0] == ps[i];
    assert ps[i..][1..] == ps[i + 1..];
  }
}
